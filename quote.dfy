/** The double-quoted rendering Go's `%q` verb gives a byte string
    (`strconv.Quote`), for the diagnostics of lines that cannot be parsed,
    and the inverse reading that shows the rendering keeps every byte. */
module Quoting {
  import opened Bytes

  datatype Option<T> = None | Some(value: T)

  /** Bytes `strconv.Quote` copies as they are: printable ASCII. */
  predicate IsPrintable(b: byte)
  {
    ' ' <= b <= '~'
  }

  /** Lower-case hexadecimal digit of a value below 16. */
  function HexDigit(d: int): byte
    requires 0 <= d < 16
  {
    if d < 10 then ByteOf('0' as int + d) else ByteOf('a' as int + d - 10)
  }

  /** The value of a lower-case hexadecimal digit, or -1. */
  function HexValue(b: byte): int
  {
    if '0' <= b <= '9' then b as int - '0' as int
    else if 'a' <= b <= 'f' then b as int - 'a' as int + 10
    else -1
  }

  /** The letter of the one-letter escape for `b` (`n` for a newline, and the
      quote and backslash themselves), or None when `b` has none. */
  function EscapeLetter(b: byte): Option<byte>
  {
    if b == '"' || b == '\\' then Some(b)
    else if b == '\U{7}' then Some('a')
    else if b == '\U{8}' then Some('b')
    else if b == '\U{C}' then Some('f')
    else if b == '\n' then Some('n')
    else if b == '\r' then Some('r')
    else if b == '\t' then Some('t')
    else if b == '\U{B}' then Some('v')
    else None
  }

  /** The byte a one-letter escape stands for, or None when `e` is not one. */
  function UnescapeLetter(e: byte): Option<byte>
  {
    if e == '"' || e == '\\' then Some(e)
    else if e == 'a' then Some('\U{7}')
    else if e == 'b' then Some('\U{8}')
    else if e == 'f' then Some('\U{C}')
    else if e == 'n' then Some('\n')
    else if e == 'r' then Some('\r')
    else if e == 't' then Some('\t')
    else if e == 'v' then Some('\U{B}')
    else None
  }

  /** One byte as `strconv.Quote` writes it: quote and backslash escaped,
      other printable ASCII as is, the seven C control escapes, and `\xhh`
      for everything else. */
  function EscapeByte(b: byte): (r: seq<byte>)
    ensures 1 <= |r| <= 4
    ensures forall i | 0 <= i < |r| :: IsPrintable(r[i])
  {
    if b == '"' || b == '\\' then ['\\', b]
    else if IsPrintable(b) then [b]
    else if EscapeLetter(b).Some? then ['\\', EscapeLetter(b).value]
    else ['\\', 'x', HexDigit(b as int / 16), HexDigit(b as int % 16)]
  }

  /** Every byte of `s`, escaped. */
  function Escape(s: seq<byte>): (r: seq<byte>)
    ensures forall i | 0 <= i < |r| :: IsPrintable(r[i])
  {
    if |s| == 0 then [] else EscapeByte(s[0]) + Escape(s[1..])
  }

  /** Printable ASCII other than the quote and the backslash is written as is. */
  lemma {:induction false} EscapePlain(s: seq<byte>)
    requires forall i | 0 <= i < |s| :: IsPrintable(s[i]) && s[i] != '"' && s[i] != '\\'
    ensures Escape(s) == s
  {
    if |s| > 0 {
      EscapePlain(s[1..]);
      assert [s[0]] + s[1..] == s;
    }
  }

  /** `s` between double quotes, escaped: the rendering `%q` gives. */
  function Quote(s: seq<byte>): (r: seq<byte>)
    ensures |r| >= 2 && r[0] == '"' && r[|r| - 1] == '"'
    ensures forall i | 0 <= i < |r| :: IsPrintable(r[i])
  {
    ['"'] + Escape(s) + ['"']
  }

  function Prepend(b: byte, rest: Option<seq<byte>>): Option<seq<byte>>
  {
    match rest
    case None => None
    case Some(t) => Some([b] + t)
  }

  /** Reads escaped text back into the bytes it stands for; None when the text
      holds something `strconv.Quote` never writes. */
  function Unescape(q: seq<byte>): Option<seq<byte>>
    decreases |q|
  {
    if |q| == 0 then Some([])
    else if q[0] == '\\' then
      if |q| >= 2 && UnescapeLetter(q[1]).Some? then
        Prepend(UnescapeLetter(q[1]).value, Unescape(q[2..]))
      else if |q| >= 4 && q[1] == 'x' && HexValue(q[2]) >= 0 && HexValue(q[3]) >= 0 then
        Prepend(ByteOf(HexValue(q[2]) * 16 + HexValue(q[3])), Unescape(q[4..]))
      else None
    else if IsPrintable(q[0]) && q[0] != '"' then Prepend(q[0], Unescape(q[1..]))
    else None
  }

  /** Reads a double-quoted rendering back into bytes. */
  function Unquote(q: seq<byte>): Option<seq<byte>>
  {
    if |q| >= 2 && q[0] == '"' && q[|q| - 1] == '"' then Unescape(q[1..|q| - 1])
    else None
  }

  /** The one-letter escapes read back as the bytes they were written for. */
  lemma UnescapeLetterOf(b: byte)
    requires EscapeLetter(b).Some?
    ensures UnescapeLetter(EscapeLetter(b).value) == Some(b)
  {
  }

  /** The two hexadecimal digits of a byte read back as that byte. */
  lemma HexValueOf(b: byte)
    ensures HexValue(HexDigit(b as int / 16)) * 16 + HexValue(HexDigit(b as int % 16)) == b as int
  {
  }

  /** Reading back one escaped byte gives that byte, whatever follows it. */
  lemma UnescapeByte(b: byte, rest: seq<byte>)
    ensures Unescape(EscapeByte(b) + rest) == Prepend(b, Unescape(rest))
  {
    var e := EscapeByte(b);
    var q := e + rest;
    if b == '"' || b == '\\' {
      assert q[2..] == rest;
    } else if IsPrintable(b) {
      assert q[1..] == rest;
    } else if EscapeLetter(b).Some? {
      UnescapeLetterOf(b);
      assert q[2..] == rest;
    } else {
      HexValueOf(b);
      assert q[1] == 'x' && UnescapeLetter(q[1]).None?;
      assert q[4..] == rest;
    }
  }

  /** Escaping loses nothing. */
  lemma {:induction false} UnescapeEscape(s: seq<byte>)
    ensures Unescape(Escape(s)) == Some(s)
  {
    if |s| > 0 {
      UnescapeEscape(s[1..]);
      UnescapeByte(s[0], Escape(s[1..]));
      assert [s[0]] + s[1..] == s;
    }
  }

  /** The quoted rendering of any byte string reads back as that byte string,
      NUL and non-UTF-8 bytes included. */
  lemma UnquoteQuote(s: seq<byte>)
    ensures Unquote(Quote(s)) == Some(s)
  {
    var q := Quote(s);
    assert q[1..|q| - 1] == Escape(s);
    UnescapeEscape(s);
  }
}
