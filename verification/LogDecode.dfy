/** What the control plane reads back of the strings and numbers of a process-log request:
    the escapes of section 7 of RFC 8259, a `\u` code as its UTF-8 bytes. */
module LogDecode {
  import opened LogShipping
  import opened LogWire
  import opened Wrappers

  function HexValue(c: char): Option<nat> {
    if '0' <= c <= '9' then Some(c as int - '0' as int)
    else if 'a' <= c <= 'f' then Some(c as int - 'a' as int + 10)
    else if 'A' <= c <= 'F' then Some(c as int - 'A' as int + 10)
    else None
  }

  /** The number written in hexadecimal. */
  function HexNumber(s: string): Option<nat> {
    if s == "" then Some(0)
    else
      var high, low := HexNumber(s[..|s| - 1]), HexValue(s[|s| - 1]);
      if high.Some? && low.Some? then Some(16 * high.value + low.value) else None
  }

  /** The UTF-8 bytes of a code point below 2^16. */
  function Utf8(code: nat): string
    requires code < 65536
  {
    if code < 128 then [code as char]
    else if code < 2048 then [(192 + code / 64) as char, (128 + code % 64) as char]
    else [(224 + code / 4096) as char, (128 + code / 64 % 64) as char, (128 + code % 64) as char]
  }

  function Prefixed(a: string, rest: Option<string>): Option<string> {
    if rest.Some? then Some(a + rest.value) else None
  }

  /** The one-letter escapes. */
  function Letter(c: char): Option<char> {
    match c
    case '"' => Some('"')
    case '\\' => Some('\\')
    case '/' => Some('/')
    case 'b' => Some('\U{08}')
    case 'f' => Some('\U{0C}')
    case 'n' => Some('\n')
    case 'r' => Some('\r')
    case 't' => Some('\t')
    case _ => None
  }

  function Decoded(t: string): Option<string>
    decreases |t|
  {
    if t == "" then Some("")
    else if t[0] == '"' || t[0] < ' ' then None
    else if t[0] != '\\' then Prefixed([t[0]], Decoded(t[1..]))
    else if |t| >= 2 && Letter(t[1]).Some? then Prefixed([Letter(t[1]).value], Decoded(t[2..]))
    else if |t| >= 6 && t[1] == 'u' && HexNumber(t[2..6]).Some? && HexNumber(t[2..6]).value < 65536
    then Prefixed(Utf8(HexNumber(t[2..6]).value), Decoded(t[6..]))
    else None
  }

  lemma FourDigits(a: char, b: char, c: char, d: char)
    requires HexValue(a).Some? && HexValue(b).Some? && HexValue(c).Some? && HexValue(d).Some?
    ensures HexNumber([a, b, c, d]) ==
            Some(4096 * HexValue(a).value + 256 * HexValue(b).value + 16 * HexValue(c).value + HexValue(d).value)
  {
    assert [a][..0] == [] && HexNumber([a]) == HexValue(a);
    assert [a, b][..1] == [a] && HexNumber([a, b]) == Some(16 * HexValue(a).value + HexValue(b).value);
    assert [a, b, c][..2] == [a, b];
    assert HexNumber([a, b, c]) == Some(256 * HexValue(a).value + 16 * HexValue(b).value + HexValue(c).value);
    assert [a, b, c, d][..3] == [a, b, c];
  }

  lemma HexDigitIs(n: nat)
    requires n < 16
    ensures HexValue(HexDigit(n)) == Some(n)
  {
  }

  /** A byte written as a `\u00` code is read back. */
  lemma CodeReadBack(c: char, rest: string)
    requires c as int < 128
    ensures Decoded("\\u00" + [HexDigit(c as int / 16), HexDigit(c as int % 16)] + rest)
            == Prefixed([c], Decoded(rest))
  {
    var h, l := HexDigit(c as int / 16), HexDigit(c as int % 16);
    var t := "\\u00" + [h, l] + rest;
    HexDigitIs(c as int / 16);
    HexDigitIs(c as int % 16);
    assert t[2..6] == ['0', '0', h, l];
    FourDigits('0', '0', h, l);
    assert t[6..] == rest;
    assert Utf8(c as int) == [c];
  }

  /** A byte escaped by a letter is read back. */
  lemma LetterReadBack(c: char, rest: string)
    requires Letter(c).Some?
    ensures Decoded(['\\', c] + rest) == Prefixed([Letter(c).value], Decoded(rest))
  {
    var t := ['\\', c] + rest;
    assert t[2..] == rest;
  }

  /** One byte, escaped, is read back. */
  lemma CharReadBack(c: char, rest: string)
    ensures Decoded(EscapedChar(c) + rest) == Prefixed([c], Decoded(rest))
  {
    var e := EscapedChar(c);
    if |e| == 6 {
      CodeReadBack(c, rest);
    } else if |e| == 2 {
      assert e == ['\\', e[1]];
      LetterReadBack(e[1], rest);
    } else {
      var t := [c] + rest;
      assert t[1..] == rest;
    }
  }

  lemma SeparatorReadBack(last: char, rest: string)
    requires last == '\U{A8}' || last == '\U{A9}'
    ensures Decoded("\\u202" + [if last == '\U{A8}' then '8' else '9'] + rest)
            == Prefixed(SEPARATOR + [last], Decoded(rest))
  {
    var d := if last == '\U{A8}' then '8' else '9';
    var t := "\\u202" + [d] + rest;
    assert t[2..6] == ['2', '0', '2', d];
    FourDigits('2', '0', '2', d);
    assert t[6..] == rest;
    var code := 8232 + if last == '\U{A8}' then 0 else 1;
    assert HexNumber(t[2..6]) == Some(code);
    assert Utf8(code) == SEPARATOR + [last];
  }

  /** The control plane reads back the very string the agent encoded. */
  lemma {:induction false} ReadBack(s: string)
    ensures Decoded(Escaped(s)) == Some(s)
    decreases |s|
  {
    if s == "" {
    } else if SEPARATOR <= s && |s| > 2 && (s[2] == '\U{A8}' || s[2] == '\U{A9}') {
      ReadBack(s[3..]);
      SeparatorReadBack(s[2], Escaped(s[3..]));
      assert s == SEPARATOR + [s[2]] + s[3..];
    } else {
      ReadBack(s[1..]);
      CharReadBack(s[0], Escaped(s[1..]));
      assert s == [s[0]] + s[1..];
    }
  }

  predicate HarmlessAt(t: string, i: nat)
    requires i < |t|
  {
    t[i] >= ' ' && t[i] !in {'<', '>', '&'} && (t[i] == '"' ==> i > 0 && t[i - 1] == '\\')
  }

  /** No byte of it can end the string early, and no markup is left in it. */
  predicate Harmless(t: string) { forall i :: 0 <= i < |t| ==> HarmlessAt(t, i) }

  lemma {:induction false} EscapedIsHarmless(s: string)
    ensures Harmless(Escaped(s))
    decreases |s|
  {
    if s == "" {
    } else if SEPARATOR <= s && |s| > 2 && (s[2] == '\U{A8}' || s[2] == '\U{A9}') {
      EscapedIsHarmless(s[3..]);
      HarmlessJoin("\\u202" + [if s[2] == '\U{A8}' then '8' else '9'], Escaped(s[3..]));
    } else {
      EscapedIsHarmless(s[1..]);
      CharIsHarmless(s[0]);
      HarmlessJoin(EscapedChar(s[0]), Escaped(s[1..]));
    }
  }

  lemma HexDigitIsHarmless(n: nat)
    requires n < 16
    ensures Harmless([HexDigit(n)])
  {
  }

  lemma CharIsHarmless(c: char)
    ensures Harmless(EscapedChar(c))
  {
    var e := EscapedChar(c);
    if |e| == 6 {
      var h, l := HexDigit(c as int / 16), HexDigit(c as int % 16);
      HexDigitIsHarmless(c as int / 16);
      HexDigitIsHarmless(c as int % 16);
      HarmlessJoin([h], [l]);
      HarmlessJoin("\\u00", [h] + [l]);
      assert e == "\\u00" + ([h] + [l]);
    }
  }

  lemma HarmlessJoin(a: string, b: string)
    requires Harmless(a) && Harmless(b)
    ensures Harmless(a + b)
  {
    var t := a + b;
    forall i | 0 <= i < |t| ensures HarmlessAt(t, i) {
      if i < |a| {
        assert HarmlessAt(a, i);
      } else {
        assert HarmlessAt(b, i - |a|);
      }
    }
  }

  function NumberOf(s: string): int {
    if s == "" then 0 else 10 * NumberOf(s[..|s| - 1]) + (s[|s| - 1] as int - '0' as int)
  }

  /** Numbers are read back too. */
  lemma {:induction false} DigitsReadBack(n: nat)
    ensures NumberOf(Digits(n)) == n && Digits(n) != "" && forall c <- Digits(n) :: '0' <= c <= '9'
    ensures n >= 10 ==> Digits(n)[0] != '0'
  {
    if n < 10 {
      assert [HexDigit(n)][..0] == [];
    } else {
      DigitsReadBack(n / 10);
      var d := Digits(n);
      assert d[..|d| - 1] == Digits(n / 10) && d[|d| - 1] == HexDigit(n % 10);
      if n / 10 < 10 { assert Digits(n / 10)[0] == HexDigit(n / 10); }
    }
  }

  lemma IntegerReadBack(i: int)
    ensures i >= 0 ==> Integer(i) == Digits(i)
    ensures i < 0 ==> Integer(i) == "-" + Digits(-i)
  {
  }
}
