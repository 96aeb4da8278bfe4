/** Python 2 `repr` of the modelled values, as pikzie embeds it in its
    diagnostics between `<` and `>`. Each rendering of a scalar has a
    parser beside it, and the lemmas prove that parsing gives the value
    back, so a diagnostic names the value it was built from. */
module PyRepr {
  import opened Options
  import opened PyValues

  /** Lower-case hexadecimal digit used by the `\xhh` escape. */
  function HexDigit(d: nat): (r: char)
    requires d < 16
    ensures '0' <= r <= '9' || 'a' <= r <= 'f'
  {
    if d < 10 then ('0' as int + d) as char else ('a' as int + d - 10) as char
  }

  /** The value of a lower-case hexadecimal digit. */
  function HexValue(c: char): (r: Option<nat>)
    ensures r.Some? ==> r.value < 16 && HexDigit(r.value) == c
  {
    if '0' <= c <= '9' then Some(c as int - '0' as int)
    else if 'a' <= c <= 'f' then Some(c as int - 'a' as int + 10)
    else None
  }

  lemma HexValueOfDigit(d: nat)
    requires d < 16
    ensures HexValue(HexDigit(d)) == Some(d)
  {
  }

  predicate IsQuote(q: char) {
    q == '\'' || q == '"'
  }

  /** Python 2 quotes with `'` unless the text holds a `'` and no `"`. */
  function QuoteFor(s: string): (q: char)
    ensures IsQuote(q)
    ensures q == '"' <==> '\'' in s && '"' !in s
  {
    if '\'' in s && '"' !in s then '"' else '\''
  }

  /** Control characters and the bytes from 0x7f to 0xff are written `\xhh`. */
  predicate NeedsHexEscape(c: char) {
    c as int < 32 || (127 <= c as int < 256)
  }

  /** The characters that appear as themselves inside the quotes. */
  predicate IsVerbatim(c: char, q: char) {
    c != q && c != '\\' && c != '\n' && c != '\r' && c != '\t' && !NeedsHexEscape(c)
  }

  /** One character of a string as it appears inside a repr quoted by `q`. */
  function EscapeChar(c: char, q: char): string {
    if c == q || c == '\\' then ['\\', c]
    else if c == '\n' then "\\n"
    else if c == '\r' then "\\r"
    else if c == '\t' then "\\t"
    else if NeedsHexEscape(c) then ['\\', 'x', HexDigit(c as int / 16), HexDigit(c as int % 16)]
    else [c]
  }

  function Escape(s: string, q: char): string {
    if s == [] then [] else EscapeChar(s[0], q) + Escape(s[1..], q)
  }

  /** `repr` of a Python 2 `str`. */
  function StrRepr(s: string): string {
    var q := QuoteFor(s);
    [q] + Escape(s, q) + [q]
  }

  function Prepend(c: char, r: Option<string>): Option<string> {
    if r.Some? then Some([c] + r.value) else None
  }

  /** The character a one-letter escape `\e` stands for. */
  function SimpleEscape(e: char): Option<char> {
    if e == '\\' || e == '\'' || e == '"' then Some(e)
    else if e == 'n' then Some('\n')
    else if e == 'r' then Some('\r')
    else if e == 't' then Some('\t')
    else None
  }

  /** Reads the text between the quotes of a repr quoted by `q`. */
  function Unescape(s: string, q: char): Option<string>
    decreases |s|
  {
    if s == [] then Some([])
    else if s[0] == q then None
    else if s[0] != '\\' then Prepend(s[0], Unescape(s[1..], q))
    else if |s| < 2 then None
    else if s[1] == 'x' then
      if |s| < 4 then None
      else match (HexValue(s[2]), HexValue(s[3]))
        case (Some(h), Some(l)) => Prepend((h * 16 + l) as char, Unescape(s[4..], q))
        case _ => None
    else match SimpleEscape(s[1])
      case Some(c) => Prepend(c, Unescape(s[2..], q))
      case None => None
  }

  /** Reads a string repr back into the string it shows. */
  function Unrepr(r: string): Option<string> {
    if |r| >= 2 && IsQuote(r[0]) && r[|r| - 1] == r[0] then Unescape(r[1..|r| - 1], r[0])
    else None
  }

  lemma UnescapeEscapeChar(c: char, q: char, rest: string)
    requires IsQuote(q)
    ensures Unescape(EscapeChar(c, q) + rest, q) == Prepend(c, Unescape(rest, q))
  {
    var t := EscapeChar(c, q) + rest;
    if c == q || c == '\\' {
      assert t[0] == '\\' && t[1] == c && t[2..] == rest;
    } else if c == '\n' || c == '\r' || c == '\t' {
      assert t[0] == '\\' && t[2..] == rest;
    } else if NeedsHexEscape(c) {
      var k := c as int;
      HexValueOfDigit(k / 16);
      HexValueOfDigit(k % 16);
      assert t[0] == '\\' && t[1] == 'x' && t[2] == HexDigit(k / 16) && t[3] == HexDigit(k % 16);
      assert t[4..] == rest;
      assert ((k / 16) * 16 + k % 16) as char == c;
    } else {
      assert t[0] == c && t[1..] == rest;
    }
  }

  lemma {:induction false} UnescapeEscape(s: string, q: char)
    requires IsQuote(q)
    ensures Unescape(Escape(s, q), q) == Some(s)
  {
    if s != [] {
      UnescapeEscape(s[1..], q);
      UnescapeEscapeChar(s[0], q, Escape(s[1..], q));
      assert [s[0]] + s[1..] == s;
    }
  }

  /** Every string repr reads back as the string it was made from. */
  lemma StrReprRoundTrip(s: string)
    ensures Unrepr(StrRepr(s)) == Some(s)
  {
    var q := QuoteFor(s);
    var r := StrRepr(s);
    assert r[0] == q && r[|r| - 1] == q;
    assert r[1..|r| - 1] == Escape(s, q);
    UnescapeEscape(s, q);
  }

  /** A string of printable ASCII without `'` or `\` is shown as itself
      between single quotes: `<''>`, `<'STRING'>`. */
  lemma {:induction false} PlainStrRepr(s: string)
    requires forall i :: 0 <= i < |s| ==> IsVerbatim(s[i], '\'')
    ensures StrRepr(s) == "'" + s + "'"
  {
    assert forall i :: 0 <= i < |s| ==> s[i] != '\'';
    PlainEscape(s);
  }

  lemma {:induction false} PlainEscape(s: string)
    requires forall i :: 0 <= i < |s| ==> IsVerbatim(s[i], '\'')
    ensures Escape(s, '\'') == s
  {
    if s != [] {
      PlainEscape(s[1..]);
      assert [s[0]] + s[1..] == s;
    }
  }

  predicate IsDigit(c: char) {
    '0' <= c <= '9'
  }

  predicate AllDigits(s: string) {
    forall i :: 0 <= i < |s| ==> IsDigit(s[i])
  }

  /** Decimal digits of a natural number, without leading zeros. */
  function NatRepr(n: nat): (r: string)
    ensures |r| > 0 && AllDigits(r)
    ensures r[0] == '0' ==> n == 0
  {
    if n < 10 then [HexDigit(n)] else NatRepr(n / 10) + [HexDigit(n % 10)]
  }

  /** The number a string of decimal digits denotes. */
  function DigitsValue(s: string): nat
    requires AllDigits(s)
  {
    if s == [] then 0 else DigitsValue(s[..|s| - 1]) * 10 + (s[|s| - 1] as int - '0' as int)
  }

  lemma {:induction false} NatReprValue(n: nat)
    ensures DigitsValue(NatRepr(n)) == n
  {
    if n >= 10 {
      NatReprValue(n / 10);
      var r := NatRepr(n);
      assert r[..|r| - 1] == NatRepr(n / 10);
    }
  }

  /** `repr` of a Python `int`: an optional minus sign and the digits. */
  function IntRepr(i: int): string {
    if i < 0 then "-" + NatRepr(-i) else NatRepr(i)
  }

  /** Reads an optionally signed decimal numeral. */
  function ParseInt(s: string): Option<int> {
    if |s| > 1 && s[0] == '-' && AllDigits(s[1..]) then Some(-(DigitsValue(s[1..]) as int))
    else if |s| > 0 && AllDigits(s) then Some(DigitsValue(s))
    else None
  }

  /** Every int repr reads back as the int it was made from. */
  lemma IntReprRoundTrip(i: int)
    ensures ParseInt(IntRepr(i)) == Some(i)
  {
    var n: nat := if i < 0 then -i else i;
    NatReprValue(n);
    if i < 0 {
      assert IntRepr(i)[1..] == NatRepr(n);
    }
  }

  lemma {:induction false} EscapeHasNoNewline(s: string, q: char)
    requires IsQuote(q)
    ensures '\n' !in Escape(s, q)
  {
    if s != [] {
      EscapeHasNoNewline(s[1..], q);
      var c, e := s[0], EscapeChar(s[0], q);
      if c == q || c == '\\' {
        assert e == ['\\', c];
      } else if c == '\n' {
        assert e == ['\\', 'n'];
      } else if c == '\r' {
        assert e == ['\\', 'r'];
      } else if c == '\t' {
        assert e == ['\\', 't'];
      } else if NeedsHexEscape(c) {
        assert e == ['\\', 'x', HexDigit(c as int / 16), HexDigit(c as int % 16)];
      } else {
        assert e == [c];
      }
      assert forall i :: 0 <= i < |e| ==> e[i] != '\n';
      var rest := Escape(s[1..], q);
      assert Escape(s, q) == e + rest;
      assert forall i :: 0 <= i < |e + rest| ==> (e + rest)[i] != '\n' by {
        forall i | 0 <= i < |e + rest| ensures (e + rest)[i] != '\n' {
          if i >= |e| { assert (e + rest)[i] == rest[i - |e|]; }
        }
      }
    }
  }

  /** `repr` of any modelled value. */
  function Repr(v: Value): string {
    match v
    case NoneV => "None"
    case BoolV(b) => if b then "True" else "False"
    case IntV(i) => IntRepr(i)
    case StrV(s) => StrRepr(s)
    case ObjV(_, text, _, _, _) => text
  }

  /** The repr of None, a bool, an int or a str never spans two lines. */
  lemma ReprHasNoNewline(v: Value)
    requires !v.ObjV?
    ensures '\n' !in Repr(v)
  {
    match v
    case StrV(s) => EscapeHasNoNewline(s, QuoteFor(s));
    case IntV(i) =>
      var n: nat := if i < 0 then -i else i;
      assert AllDigits(NatRepr(n));
    case _ =>
  }
}
