/**
 * The escape decoding of playlists/views.py (`_decode_unicode_escapes`,
 * `_decode_list`): the value is quoted into a JSON string literal and handed
 * to `json.loads`, falling back to the value itself when decoding fails.
 *
 * `LiteralBody` models what `json.loads` does with the text `"` + t + `"`
 * (RFC 8259, section 7, with Python's strict rejection of raw control
 * characters).
 */
module JsonText {
  import opened Wrappers
  import opened Json

  /** `s.replace(c, repl)` for a one-character pattern. */
  function ReplaceChar(s: string, c: char, repl: string): (r: string)
    ensures c !in s ==> r == s
  {
    if s == [] then []
    else (if s[0] == c then repl else [s[0]]) + ReplaceChar(s[1..], c, repl)
  }

  lemma {:induction false} ReplaceCharAppend(a: string, b: string, c: char, repl: string)
    ensures ReplaceChar(a + b, c, repl) == ReplaceChar(a, c, repl) + ReplaceChar(b, c, repl)
  {
    if a != [] {
      assert (a + b)[0] == a[0];
      assert (a + b)[1..] == a[1..] + b;
      ReplaceCharAppend(a[1..], b, c, repl);
    } else {
      assert a + b == b;
    }
  }

  function HexDigitValue(c: char): Option<nat>
  {
    if '0' <= c <= '9' then Some(c as nat - '0' as nat)
    else if 'a' <= c <= 'f' then Some(c as nat - 'a' as nat + 10)
    else if 'A' <= c <= 'F' then Some(c as nat - 'A' as nat + 10)
    else None
  }

  /** The value of four hexadecimal digits, if all four are digits. */
  function Hex4Value(h: string): (r: Option<nat>)
    requires |h| == 4
    ensures r.Some? ==> r.value < 0x10000
  {
    match (HexDigitValue(h[0]), HexDigitValue(h[1]), HexDigitValue(h[2]), HexDigitValue(h[3]))
    case (Some(a), Some(b), Some(c), Some(d)) =>
      assert a < 16 && b < 16 && c < 16 && d < 16;
      Some(((a * 16 + b) * 16 + c) * 16 + d)
    case _ => None
  }

  function Cons(c: char, o: Option<string>): (r: Option<string>)
    ensures r.Some? <==> o.Some?
    ensures r.Some? ==> r.value == [c] + o.value
  {
    match o
    case Some(s) => Some([c] + s)
    case None => None
  }

  /** The character a two-character escape `\c` stands for, if `c` names one. */
  function SimpleEscape(c: char): Option<char>
  {
    if c == '"' || c == '\\' || c == '/' then Some(c)
    else if c == 'b' then Some(8 as char)
    else if c == 'f' then Some(12 as char)
    else if c == 'n' then Some('\n')
    else if c == 'r' then Some('\r')
    else if c == 't' then Some('\t')
    else None
  }

  /**
   * Decoding of the JSON text `"` + t + `"`: None when `json.loads` raises.
   * A `\u` escape naming a UTF-16 surrogate is rejected here (see README).
   */
  function LiteralBody(t: string): Option<string>
    decreases |t|
  {
    if t == [] then Some([])
    else if t[0] == '"' then None        // the literal closes early: extra data follows
    else if t[0] < ' ' then None         // raw control character (strict mode)
    else if t[0] != '\\' then Cons(t[0], LiteralBody(t[1..]))
    else if |t| == 1 then None           // the backslash escapes the closing quote
    else if t[1] == 'u' then
      if |t| < 6 then None
      else match Hex4Value(t[2..6])
        case Some(code) =>
          if 0xD800 <= code < 0xE000 then None
          else Cons(code as char, LiteralBody(t[6..]))
        case None => None
    else
      match SimpleEscape(t[1])
      case Some(c) => Cons(c, LiteralBody(t[2..]))
      case None => None
  }

  predicate HasControl(s: string)
  {
    exists i :: 0 <= i < |s| && s[i] < ' '
  }

  // ---------------------------------------------------------------------
  // As written: backslashes are doubled, then quotes escaped.

  /** `value.replace("\\", "\\\\").replace('"', '\\"')` */
  function QuoteAsWritten(s: string): string
  {
    ReplaceChar(ReplaceChar(s, '\\', "\\\\"), '"', "\\\"")
  }

  /** `_decode_unicode_escapes` on a string, as written. */
  function DecodeTextAsWritten(s: string): string
  {
    if '\\' in s then
      match LiteralBody(QuoteAsWritten(s))
      case Some(d) => d
      case None => s
    else s
  }

  /** `_decode_unicode_escapes(value)`, as written. */
  function DecodeUnicodeEscapesAsWritten(v: Value): (r: Value)
    ensures !v.Str? ==> r == v
    ensures v.Str? && '\\' !in v.s ==> r == v
    ensures v.Str? && LiteralBody(QuoteAsWritten(v.s)).None? ==> r == v
  {
    match v
    case Str(s) => Str(DecodeTextAsWritten(s))
    case _ => v
  }

  lemma {:induction false} QuoteAsWrittenCons(c: char, s: string)
    ensures QuoteAsWritten([c] + s)
         == (if c == '\\' then "\\\\" else if c == '"' then "\\\"" else [c]) + QuoteAsWritten(s)
  {
    var inner := ReplaceChar([c] + s, '\\', "\\\\");
    assert ([c] + s)[0] == c && ([c] + s)[1..] == s;
    var head := if c == '\\' then "\\\\" else [c];
    assert inner == head + ReplaceChar(s, '\\', "\\\\");
    ReplaceCharAppend(head, ReplaceChar(s, '\\', "\\\\"), '"', "\\\"");
    if c == '\\' {
      assert ReplaceChar(head, '"', "\\\"") == "\\\\";
    } else if c == '"' {
      assert ReplaceChar(head, '"', "\\\"") == "\\\"";
    } else {
      assert ReplaceChar(head, '"', "\\\"") == [c];
    }
  }

  lemma HasControlCons(c: char, rest: string)
    ensures HasControl([c] + rest) <==> c < ' ' || HasControl(rest)
  {
    var s := [c] + rest;
    assert s[0] == c;
    if HasControl(rest) {
      var i :| 0 <= i < |rest| && rest[i] < ' ';
      assert s[i + 1] == rest[i];
    }
    if HasControl(s) && !(c < ' ') {
      var i :| 0 <= i < |s| && s[i] < ' ';
      assert rest[i - 1] == s[i];
    }
  }

  /** A two-character escape other than `\u` is read as its character. */
  lemma EscapeStep(e: char, c: char, t: string)
    requires e != 'u' && SimpleEscape(e) == Some(c)
    ensures LiteralBody(['\\', e] + t) == Cons(c, LiteralBody(t))
  {
    assert (['\\', e] + t)[2..] == t;
  }

  /** Any other character is read as itself, unless it is a control character. */
  lemma PlainStep(c: char, t: string)
    requires c != '"' && c != '\\'
    ensures LiteralBody([c] + t) == if c < ' ' then None else Cons(c, LiteralBody(t))
  {
    assert ([c] + t)[1..] == t;
  }

  /** Doubling the backslashes makes `json.loads` give back exactly its input. */
  lemma {:induction false} AsWrittenRoundTrip(s: string)
    ensures LiteralBody(QuoteAsWritten(s)) == if HasControl(s) then None else Some(s)
    decreases |s|
  {
    if s == [] {
      assert QuoteAsWritten(s) == [];
    } else {
      var c, rest := s[0], s[1..];
      assert s == [c] + rest;
      QuoteAsWrittenCons(c, rest);
      AsWrittenRoundTrip(rest);
      HasControlCons(c, rest);
      var qr := QuoteAsWritten(rest);
      if c == '\\' {
        EscapeStep('\\', '\\', qr);
      } else if c == '"' {
        EscapeStep('"', '"', qr);
      } else {
        PlainStep(c, qr);
      }
    }
  }

  /** Hence the as-written decoder decodes nothing: it is the identity. */
  lemma DecodeAsWrittenIsIdentity(v: Value)
    ensures DecodeUnicodeEscapesAsWritten(v) == v
  {
    if v.Str? && '\\' in v.s {
      AsWrittenRoundTrip(v.s);
    }
  }

  /** The concrete input that shows it: `-` stays six characters long. */
  lemma DashEscapeNotDecodedAsWritten()
    ensures DecodeUnicodeEscapesAsWritten(Str("\\u002D")) == Str("\\u002D")
    ensures DecodeUnicodeEscapesAsWritten(Str("\\u002D")) != Str("-")
  {
    DecodeAsWrittenIsIdentity(Str("\\u002D"));
  }

  // ---------------------------------------------------------------------
  // Corrected: only the double quote is escaped, so escape sequences reach `json.loads`.

  function QuoteForLiteral(s: string): string
  {
    ReplaceChar(s, '"', "\\\"")
  }

  function DecodeText(s: string): string
  {
    if '\\' in s then
      match LiteralBody(QuoteForLiteral(s))
      case Some(d) => d
      case None => s
    else s
  }

  /** `_decode_unicode_escapes(value)` with the intended behaviour. */
  function DecodeEscapes(v: Value): (r: Value)
    ensures !v.Str? ==> r == v
    ensures v.Str? ==> r.Str?
    ensures v.Str? && '\\' !in v.s ==> r == v
    ensures v.Str? && LiteralBody(QuoteForLiteral(v.s)).None? ==> r == v
  {
    match v
    case Str(s) => Str(DecodeText(s))
    case _ => v
  }

  /** `_decode_list(lst)`: element-wise decoding of a list; anything else unchanged. */
  function DecodeList(v: Value): (r: Value)
    ensures !v.Array? ==> r == v
    ensures v.Array? ==> r.Array? && |r.items| == |v.items|
    ensures v.Array? ==> forall k :: 0 <= k < |v.items| ==> r.items[k] == DecodeEscapes(v.items[k])
  {
    match v
    case Array(a) => Array(seq(|a|, k requires 0 <= k < |a| => DecodeEscapes(a[k])))
    case _ => v
  }

  function HexDigit(d: nat): (c: char)
    requires d < 16
    ensures c != '"'
  {
    "0123456789ABCDEF"[d]
  }

  /** Four upper-case hexadecimal digits of a code point below 0x10000. */
  function Hex4(n: nat): (h: string)
    requires n < 0x10000
    ensures |h| == 4 && '"' !in h
  {
    [HexDigit(n / 4096), HexDigit(n / 256 % 16), HexDigit(n / 16 % 16), HexDigit(n % 16)]
  }

  lemma HexDigitRoundTrip(d: nat)
    requires d < 16
    ensures HexDigitValue(HexDigit(d)) == Some(d)
  {
  }

  /** The four base-16 digits of `n` put back together give `n`. */
  lemma Hex4Digits(n: nat)
    requires n < 0x10000
    ensures n / 4096 < 16
    ensures ((n / 4096 * 16 + n / 256 % 16) * 16 + n / 16 % 16) * 16 + n % 16 == n
  {
    var q1 := n / 16;
    var q2 := q1 / 16;
    assert n == q1 * 16 + n % 16;
    assert q1 == q2 * 16 + q1 % 16;
    assert n / 256 == q2;
    assert q1 % 16 == n / 16 % 16;
    assert q2 == q2 / 16 * 16 + q2 % 16;
    assert n / 4096 == q2 / 16;
  }

  lemma Hex4RoundTrip(n: nat)
    requires n < 0x10000
    ensures Hex4Value(Hex4(n)) == Some(n)
  {
    Hex4Digits(n);
    HexDigitRoundTrip(n / 4096);
    HexDigitRoundTrip(n / 256 % 16);
    HexDigitRoundTrip(n / 16 % 16);
    HexDigitRoundTrip(n % 16);
  }

  lemma LiteralBodyUnicodeStep(t: string, n: nat)
    requires |t| >= 6 && t[0] == '\\' && t[1] == 'u'
    requires Hex4Value(t[2..6]) == Some(n) && !(0xD800 <= n < 0xE000)
    ensures LiteralBody(t) == Cons(n as char, LiteralBody(t[6..]))
  {
  }

  lemma UnicodeEscapeBody(c: char)
    requires c as int < 0x10000
    ensures LiteralBody("\\u" + Hex4(c as nat)) == Some([c])
  {
    var s := "\\u" + Hex4(c as nat);
    Hex4RoundTrip(c as nat);
    assert s[2..6] == Hex4(c as nat);
    assert !(0xD800 <= c as nat < 0xE000);
    LiteralBodyUnicodeStep(s, c as nat);
    assert LiteralBody(s) == Cons((c as nat) as char, LiteralBody(s[6..]));
    assert s[6..] == [];
    assert LiteralBody(s[6..]) == Some([]);
    assert (c as nat) as char == c;
    assert [c] + [] == [c];
    assert Cons(c, Some([])) == Some([c]);
  }

  /** The intended behaviour: a `\uXXXX` escape is decoded to its character. */
  lemma DecodesUnicodeEscape(c: char)
    requires c as int < 0x10000
    ensures DecodeEscapes(Str("\\u" + Hex4(c as nat))) == Str([c])
  {
    var s := "\\u" + Hex4(c as nat);
    assert s[0] == '\\';
    assert '"' !in s;
    assert QuoteForLiteral(s) == s;
    UnicodeEscapeBody(c);
  }

  /** With the corrected decoder, the example of the as-written one is decoded. */
  lemma DashEscapeDecoded()
    ensures DecodeEscapes(Str("\\u002D")) == Str("-")
  {
    var n := '-' as nat;
    assert n == 45;
    assert HexDigit(0) == '0' && HexDigit(2) == '2' && HexDigit(13) == 'D';
    assert Hex4(n) == [HexDigit(0), HexDigit(0), HexDigit(2), HexDigit(13)];
    assert "\\u" + Hex4(n) == "\\u002D";
    DecodesUnicodeEscape('-');
  }
}
