/** The pieces of JavaScript's string built-ins that the app relies on:
    formatting an integer `number` as text, `parseInt(s, 10)`,
    `String.prototype.split` with a one-character separator and
    `filter(Boolean)` on the pieces. */
module JsText {
  import opened Types

  predicate IsDigit(c: char) {
    '0' <= c <= '9'
  }

  predicate AllDigits(s: string) {
    forall i :: 0 <= i < |s| ==> IsDigit(s[i])
  }

  function DigitChar(d: nat): (c: char)
    requires d < 10
    ensures IsDigit(c) && c as int - '0' as int == d
  {
    ('0' as int + d) as char
  }

  /** The white space that `parseInt` skips: the WhiteSpace and
      LineTerminator characters of ECMAScript (section 12.2 and 12.3 of
      ECMA-262). */
  predicate IsJsWhitespace(c: char) {
    var k := c as int;
    k == 0x09 || k == 0x0A || k == 0x0B || k == 0x0C || k == 0x0D || k == 0x20
    || k == 0xA0 || k == 0x1680 || (0x2000 <= k <= 0x200A)
    || k == 0x2028 || k == 0x2029 || k == 0x202F || k == 0x205F || k == 0x3000
    || k == 0xFEFF
  }

  /** Decimal digits of a natural number, without leading zeros. */
  function NatToDecimal(n: nat): (s: string)
    ensures |s| > 0 && AllDigits(s)
    ensures |s| > 1 ==> s[0] != '0'
    decreases n
  {
    if n < 10 then [DigitChar(n)] else NatToDecimal(n / 10) + [DigitChar(n % 10)]
  }

  /** The value of a string of decimal digits, most significant first. */
  function DecimalValue(s: string): nat
    requires AllDigits(s)
  {
    if s == [] then 0 else DecimalValue(s[..|s| - 1]) * 10 + (s[|s| - 1] as int - '0' as int)
  }

  lemma {:induction false} DecimalValueOfNatToDecimal(n: nat)
    ensures DecimalValue(NatToDecimal(n)) == n
    decreases n
  {
    if n >= 10 {
      var s := NatToDecimal(n);
      assert s[..|s| - 1] == NatToDecimal(n / 10);
      DecimalValueOfNatToDecimal(n / 10);
    }
  }

  /** How an integral JavaScript number is written by a template literal
      (`${n}`): an optional minus sign followed by its decimal digits. */
  function NumberToString(n: int): (s: string)
    ensures |s| > 0
    ensures n < 0 <==> s[0] == '-'
    ensures '/' !in s
  {
    if n < 0 then ['-'] + NatToDecimal(-n) else NatToDecimal(n)
  }

  /** `s` with its leading ECMAScript white space removed. */
  function TrimStart(s: string): (r: string)
    ensures |r| <= |s| && r == s[|s| - |r|..]
    ensures r == [] || !IsJsWhitespace(r[0])
  {
    if s != [] && IsJsWhitespace(s[0]) then TrimStart(s[1..]) else s
  }

  /** Length of the longest prefix of `s` made of decimal digits. */
  function DigitRun(s: string): (k: nat)
    ensures k <= |s| && AllDigits(s[..k])
    ensures k < |s| ==> !IsDigit(s[k])
  {
    if s != [] && IsDigit(s[0]) then
      var k := 1 + DigitRun(s[1..]);
      assert s[..k] == [s[0]] + s[1..][..k - 1];
      k
    else 0
  }

  /** The longest run of decimal digits at the start of `body`, as a
      number; `None` when there is none. */
  function LeadingDigits(body: string): (r: Option<int>)
    ensures r.Some? <==> body != [] && IsDigit(body[0])
  {
    var k := DigitRun(body);
    if k == 0 then None else Some(DecimalValue(body[..k]) as int)
  }

  /** `parseInt` after the white space: an optional sign, then the digits. */
  function ParseSigned(t: string): (r: Option<int>)
    ensures r.Some? <==>
      t != [] && (IsDigit(t[0]) || ((t[0] == '-' || t[0] == '+') && |t| > 1 && IsDigit(t[1])))
    ensures r.Some? && r.value < 0 ==> t[0] == '-'
  {
    if t != [] && t[0] == '-' then
      match LeadingDigits(t[1..])
      case None => None
      case Some(magnitude) => Some(-magnitude)
    else if t != [] && t[0] == '+' then LeadingDigits(t[1..])
    else LeadingDigits(t)
  }

  /** `parseInt(s, 10)`: skip leading white space, take an optional sign, then
      the longest run of decimal digits; `None` is `NaN` (no digit at all).
      Trailing characters after the digits are ignored, as JavaScript does. */
  function ParseInt(s: string): (r: Option<int>)
    ensures var t := TrimStart(s);
      r.Some? <==>
        t != [] && (IsDigit(t[0]) || ((t[0] == '-' || t[0] == '+') && |t| > 1 && IsDigit(t[1])))
  {
    ParseSigned(TrimStart(s))
  }

  lemma {:induction false} DigitRunOfDigitsThen(d: string, rest: string)
    requires AllDigits(d)
    requires rest == [] || !IsDigit(rest[0])
    ensures DigitRun(d + rest) == |d|
    decreases |d|
  {
    if d != [] {
      assert (d + rest)[1..] == d[1..] + rest;
      DigitRunOfDigitsThen(d[1..], rest);
    } else {
      assert d + rest == rest;
    }
  }

  /** A minus sign or a digit is not white space, so nothing is trimmed. */
  lemma TrimStartOfSignOrDigit(s: string)
    requires s != [] && (s[0] == '-' || IsDigit(s[0]))
    ensures TrimStart(s) == s
  {
    assert !IsJsWhitespace(s[0]);
  }

  lemma LeadingDigitsThen(d: string, rest: string)
    requires d != [] && AllDigits(d)
    requires rest == [] || !IsDigit(rest[0])
    ensures LeadingDigits(d + rest) == Some(DecimalValue(d) as int)
  {
    DigitRunOfDigitsThen(d, rest);
    assert (d + rest)[..|d|] == d;
  }

  /** `parseInt` of text that starts with a digit is the value of its
      leading digits. */
  lemma ParseIntOfDigits(body: string)
    requires body != [] && IsDigit(body[0])
    ensures ParseInt(body) == LeadingDigits(body)
  {
    TrimStartOfSignOrDigit(body);
  }

  /** After a minus sign: the negated value of the leading digits. */
  lemma ParseIntOfNegativeDigits(d: string, rest: string)
    requires d + rest != [] && IsDigit((d + rest)[0])
    ensures ParseInt(['-'] + d + rest) == Some(-LeadingDigits(d + rest).value)
  {
    var s := ['-'] + d + rest;
    TrimStartOfSignOrDigit(s);
    assert s[1..] == d + rest;
  }

  /** The leading digits of a written natural number, followed by text
      that does not start with a digit, read back as that number. */
  lemma LeadingDigitsOfNatToDecimal(m: nat, rest: string)
    requires rest == [] || !IsDigit(rest[0])
    ensures NatToDecimal(m) + rest != [] && IsDigit((NatToDecimal(m) + rest)[0])
    ensures LeadingDigits(NatToDecimal(m) + rest) == Some(m)
  {
    var d := NatToDecimal(m);
    DecimalValueOfNatToDecimal(m);
    LeadingDigitsThen(d, rest);
    assert (d + rest)[0] == d[0];
  }

  /** `parseInt` reads back a written non-negative number. */
  lemma ParseIntOfNonNegativeNumber(n: nat, rest: string)
    requires rest == [] || !IsDigit(rest[0])
    ensures ParseInt(NumberToString(n) + rest) == Some(n)
  {
    LeadingDigitsOfNatToDecimal(n, rest);
    ParseIntOfDigits(NatToDecimal(n) + rest);
  }

  /** A negative number is written as a minus sign and its magnitude. */
  lemma NegativeNumberText(m: nat)
    requires m > 0
    ensures NumberToString(-(m as int)) == ['-'] + NatToDecimal(m)
  {
  }

  /** `parseInt` reads back a written negative number. */
  lemma ParseIntOfNegativeNumber(m: nat, rest: string)
    requires m > 0
    requires rest == [] || !IsDigit(rest[0])
    ensures ParseInt(NumberToString(-(m as int)) + rest) == Some(-(m as int))
  {
    NegativeNumberText(m);
    assert ParseInt(['-'] + NatToDecimal(m) + rest) == Some(-(m as int)) by {
      LeadingDigitsOfNatToDecimal(m, rest);
      ParseIntOfNegativeDigits(NatToDecimal(m), rest);
    }
  }

  /** `parseInt` reads back every integer that a template literal writes,
      also when other text that does not start with a digit follows it. */
  lemma ParseIntOfNumberToString(n: int, rest: string)
    requires rest == [] || !IsDigit(rest[0])
    ensures ParseInt(NumberToString(n) + rest) == Some(n)
  {
    if n < 0 {
      ParseIntOfNegativeNumber(-n, rest);
    } else {
      ParseIntOfNonNegativeNumber(n, rest);
    }
  }

  /** `s.split(sep)` for a one-character separator: the pieces between the
      separators, including empty ones; the empty string gives one empty
      piece. */
  function Split(s: string, sep: char): (r: seq<string>)
    ensures |r| > 0
    ensures forall i :: 0 <= i < |r| ==> sep !in r[i]
  {
    if s == [] then [""]
    else
      var tail := Split(s[1..], sep);
      if s[0] == sep then [""] + tail else [[s[0]] + tail[0]] + tail[1..]
  }

  /** The inverse of `Split`: the pieces joined with the separator. */
  function Join(parts: seq<string>, sep: char): string
    requires |parts| > 0
  {
    if |parts| == 1 then parts[0] else parts[0] + [sep] + Join(parts[1..], sep)
  }

  lemma {:induction false} JoinSplit(s: string, sep: char)
    ensures Join(Split(s, sep), sep) == s
  {
    if s != [] {
      var tail := Split(s[1..], sep);
      JoinSplit(s[1..], sep);
      if s[0] == sep {
        assert Split(s, sep)[1..] == tail;
      } else {
        var r := Split(s, sep);
        if |tail| == 1 {
          assert r == [[s[0]] + tail[0]];
        } else {
          assert r[1..] == tail[1..];
          assert Join(tail, sep) == tail[0] + [sep] + Join(tail[1..], sep);
        }
      }
    }
  }

  lemma {:induction false} SplitWithoutSeparator(w: string, sep: char)
    requires sep !in w
    ensures Split(w, sep) == [w]
  {
    if w != [] {
      assert w[0] != sep;
      SplitWithoutSeparator(w[1..], sep);
      assert [w[0]] + w[1..] == w;
    }
  }

  lemma {:induction false} SplitAround(a: string, sep: char, b: string)
    ensures Split(a + [sep] + b, sep) == Split(a, sep) + Split(b, sep)
  {
    if a == [] {
      assert a + [sep] + b == [sep] + b;
      assert ([sep] + b)[1..] == b;
    } else {
      assert (a + [sep] + b)[1..] == a[1..] + [sep] + b;
      SplitAround(a[1..], sep, b);
    }
  }

  /** `parts.filter(Boolean)`: the non-empty pieces, in order. */
  function NonEmpty(parts: seq<string>): (r: seq<string>)
    ensures |r| <= |parts|
    ensures forall i :: 0 <= i < |r| ==> r[i] != "" && r[i] in parts
    ensures forall p :: p in parts && p != "" ==> p in r
  {
    if parts == [] then []
    else if parts[0] == "" then NonEmpty(parts[1..])
    else [parts[0]] + NonEmpty(parts[1..])
  }

  lemma {:induction false} NonEmptyConcat(a: seq<string>, b: seq<string>)
    ensures NonEmpty(a + b) == NonEmpty(a) + NonEmpty(b)
  {
    if a == [] {
      assert a + b == b;
    } else {
      assert (a + b)[1..] == a[1..] + b;
      NonEmptyConcat(a[1..], b);
    }
  }

  /** `path.split('/').filter(Boolean)`. */
  function PathSegments(path: string): (r: seq<string>)
    ensures forall i :: 0 <= i < |r| ==> r[i] != "" && '/' !in r[i]
  {
    NonEmpty(Split(path, '/'))
  }

  /** Two non-empty words without a slash, joined by one, split back into
      exactly those two segments. */
  lemma TwoSegments(first: string, second: string)
    requires first != "" && '/' !in first
    requires second != "" && '/' !in second
    ensures PathSegments(first + "/" + second) == [first, second]
  {
    SplitAround(first, '/', second);
    SplitWithoutSeparator(first, '/');
    SplitWithoutSeparator(second, '/');
    NonEmptyConcat([first], [second]);
  }
}
