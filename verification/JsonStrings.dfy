/** JSON strings as Python's json.dumps writes them, in printable ASCII only, and that the decoder reads them back. */
module JsonStrings {
  import opened Basics
  import opened ClientKeys

  function HexChar(d: nat): char
    requires d < 16
  {
    if d < 10 then '0' + d as char else 'a' + (d - 10) as char
  }

  function HexOf(n: nat): string
    requires n < 0x1_0000
  {
    [HexChar(n / 0x1000), HexChar(n / 0x100 % 16), HexChar(n / 16 % 16), HexChar(n % 16)]
  }

  lemma HexDigitBack(d: nat)
    requires d < 16
    ensures HexDigit(HexChar(d)) == Some(d)
  {
  }

  lemma FourDigits(n: nat)
    requires n < 0x1_0000
    ensures n / 0x1000 < 16 && ((n / 0x1000 * 16 + n / 0x100 % 16) * 16 + n / 16 % 16) * 16 + n % 16 == n
  {
    assert n / 0x100 == n / 0x1000 * 16 + n / 0x100 % 16;
    assert n / 16 == n / 0x100 * 16 + n / 16 % 16;
  }

  lemma HexValue(a: nat, b: nat, c: nat, d: nat, s: string)
    requires a < 16 && b < 16 && c < 16 && d < 16 && |s| >= 4
    requires s[0] == HexChar(a) && s[1] == HexChar(b) && s[2] == HexChar(c) && s[3] == HexChar(d)
    ensures Hex4(s) == Some(((a * 16 + b) * 16 + c) * 16 + d)
  {
    HexDigitBack(a);
    HexDigitBack(b);
    HexDigitBack(c);
    HexDigitBack(d);
  }

  lemma HexBack(n: nat, rest: string)
    requires n < 0x1_0000
    ensures Hex4(HexOf(n) + rest) == Some(n)
  {
    FourDigits(n);
    HexValue(n / 0x1000, n / 0x100 % 16, n / 16 % 16, n % 16, HexOf(n) + rest);
  }

  /** One \u escape. */
  function Unit(n: nat): string
    requires n < 0x1_0000
  {
    "\\u" + HexOf(n)
  }

  /** The letter of a two-character escape. */
  function Letter(c: char): Option<char> {
    match c
    case '"' => Some('"')
    case '\\' => Some('\\')
    case '\n' => Some('n')
    case '\r' => Some('r')
    case '\t' => Some('t')
    case '\U{08}' => Some('b')
    case '\U{0C}' => Some('f')
    case _ => None
  }

  function AsciiChar(c: char): string {
    if Letter(c).Some? then "\\" + [Letter(c).value]
    else if ' ' <= c <= '~' then [c]
    else if c as nat < 0x1_0000 then Unit(c as nat)
    else
      var v := c as nat - 0x1_0000;
      Unit(0xD800 + v / 0x400) + Unit(0xDC00 + v % 0x400)
  }

  function Ascii(k: string): string {
    if k == "" then "" else AsciiChar(k[0]) + Ascii(k[1..])
  }

  lemma UnitBegins(n: nat, rest: string)
    requires n < 0x1_0000
    ensures var s := Unit(n) + rest;
      |s| >= 6 && s[0] == '\\' && s[1] == 'u' && s[6..] == rest && Hex4(s[2..]) == Some(n)
  {
    var s := Unit(n) + rest;
    assert s[2..] == HexOf(n) + rest;
    HexBack(n, rest);
  }

  lemma OneUnit(n: nat, rest: string)
    requires n < 0xD800 || 0xE000 <= n < 0x1_0000
    ensures JsonChars(Unit(n) + rest) == Prepend(n as char, JsonChars(rest))
  {
    UnitBegins(n, rest);
    var s := Unit(n) + rest;
    assert UnicodeEscape(s) == Some((n as char, 6));
  }

  lemma TwoUnits(v: nat, rest: string)
    requires v < 0x10_0000
    ensures var pair := Unit(0xD800 + v / 0x400) + Unit(0xDC00 + v % 0x400);
      JsonChars(pair + rest) == Prepend((0x1_0000 + v) as char, JsonChars(rest))
  {
    var high, low := 0xD800 + v / 0x400, 0xDC00 + v % 0x400;
    var s := Unit(high) + (Unit(low) + rest);
    Assoc(Unit(high), Unit(low), rest);
    UnitBegins(high, Unit(low) + rest);
    UnitBegins(low, rest);
    SecondUnit(s, Unit(low) + rest, rest);
    assert UnicodeEscape(s) == Some(((0x1_0000 + v) as char, 12));
  }

  lemma SecondUnit(s: string, t: string, rest: string)
    requires |s| >= 6 && s[6..] == t && |t| >= 6 && t[6..] == rest
    ensures |s| >= 12 && s[6] == t[0] && s[7] == t[1] && s[8..] == t[2..] && s[12..] == rest
  {
    assert s[6..][0] == t[0] && s[6..][1] == t[1];
    assert s[6..][2..] == s[8..] && s[6..][6..] == s[12..];
  }

  lemma TwoCharacters(c: char, rest: string)
    requires Letter(c).Some?
    ensures JsonChars("\\" + [Letter(c).value] + rest) == Prepend(c, JsonChars(rest))
  {
    ShortEscape(c, Letter(c).value, rest);
  }

  lemma ShortEscape(c: char, letter: char, rest: string)
    requires SimpleEscape(letter) == Some(c) && letter != 'u'
    ensures JsonChars("\\" + [letter] + rest) == Prepend(c, JsonChars(rest))
  {
    var s := "\\" + [letter] + rest;
    assert s[2..] == rest && s[1] == letter;
  }

  lemma PairFirst(c: char, rest: string)
    requires c as nat >= 0x1_0000
    ensures JsonChars(AsciiChar(c) + rest) == Prepend(c, JsonChars(rest))
  {
    var v := c as nat - 0x1_0000;
    TwoUnits(v, rest);
    assert (0x1_0000 + v) as char == c;
    PairChar(c, v);
  }

  lemma PairChar(c: char, v: nat)
    requires c as nat == 0x1_0000 + v
    ensures AsciiChar(c) == Unit(0xD800 + v / 0x400) + Unit(0xDC00 + v % 0x400)
  {
  }

  lemma AsciiFirst(c: char, rest: string)
    ensures JsonChars(AsciiChar(c) + rest) == Prepend(c, JsonChars(rest))
  {
    if Letter(c).Some? {
      TwoCharacters(c, rest);
    } else if ' ' <= c <= '~' {
      assert ([c] + rest)[1..] == rest;
    } else if c as nat < 0x1_0000 {
      OneUnit(c as nat, rest);
    } else {
      PairFirst(c, rest);
    }
  }

  /** Every key is read back, whatever characters it has. */
  lemma {:induction false} JsonUndoesAscii(k: string)
    ensures JsonChars(Ascii(k) + "\"") == Some(k)
  {
    if k == "" {
      assert Ascii(k) + "\"" == "\"";
    } else {
      JsonUndoesAscii(k[1..]);
      Assoc(AsciiChar(k[0]), Ascii(k[1..]), "\"");
      AsciiFirst(k[0], Ascii(k[1..]) + "\"");
      assert [k[0]] + k[1..] == k;
    }
  }

  // ---- the closing quote ----

  predicate Tame(c: char) {
    c != '"' && c != '\\'
  }

  lemma {:induction false} TamePassed(v: string, i: nat, n: nat)
    requires i + n <= |v| && forall j :: i <= j < i + n ==> Tame(v[j])
    ensures CloseQuote(v, i) == CloseQuote(v, i + n)
    decreases n
  {
    if n > 0 {
      TamePassed(v, i + 1, n - 1);
    }
  }

  lemma HexIsTame(d: nat)
    requires d < 16
    ensures Tame(HexChar(d))
  {
  }

  lemma UnitIs(n: nat)
    requires n < 0x1_0000
    ensures |Unit(n)| == 6 && Unit(n)[0] == '\\' && forall j :: 1 <= j < 6 ==> Tame(Unit(n)[j])
  {
    FourDigits(n);
    HexIsTame(n / 0x1000);
    HexIsTame(n / 0x100 % 16);
    HexIsTame(n / 16 % 16);
    HexIsTame(n % 16);
    assert Unit(n) == ['\\', 'u', HexChar(n / 0x1000), HexChar(n / 0x100 % 16), HexChar(n / 16 % 16), HexChar(n % 16)];
  }

  /** The text stands in v at i. */
  predicate StandsAt(v: string, i: nat, e: string) {
    i + |e| <= |v| && v[i..i + |e|] == e
  }

  lemma UnitPassed(v: string, i: nat, n: nat)
    requires n < 0x1_0000 && StandsAt(v, i, Unit(n))
    ensures |Unit(n)| == 6 && CloseQuote(v, i) == CloseQuote(v, i + 6)
  {
    UnitIs(n);
    assert v[i] == v[i..i + 6][0];
    forall j | i + 2 <= j < i + 6 ensures Tame(v[j]) {
      assert v[j] == v[i..i + 6][j - i];
    }
    TamePassed(v, i + 2, 4);
  }

  lemma BothStand(v: string, i: nat, a: string, b: string)
    requires StandsAt(v, i, a + b)
    ensures StandsAt(v, i, a) && StandsAt(v, i + |a|, b)
  {
    assert v[i..i + |a|] == v[i..i + |a + b|][..|a|];
    assert v[i + |a|..i + |a| + |b|] == v[i..i + |a + b|][|a|..];
  }

  lemma PairPassed(v: string, i: nat, c: char)
    requires c as nat >= 0x1_0000 && StandsAt(v, i, AsciiChar(c))
    ensures CloseQuote(v, i) == CloseQuote(v, i + |AsciiChar(c)|)
  {
    var w := c as nat - 0x1_0000;
    PairChar(c, w);
    BothStand(v, i, Unit(0xD800 + w / 0x400), Unit(0xDC00 + w % 0x400));
    UnitPassed(v, i, 0xD800 + w / 0x400);
    UnitPassed(v, i + 6, 0xDC00 + w % 0x400);
  }

  lemma ShortPassed(v: string, i: nat, c: char)
    requires (Letter(c).Some? || ' ' <= c <= '~') && StandsAt(v, i, AsciiChar(c))
    ensures CloseQuote(v, i) == CloseQuote(v, i + |AsciiChar(c)|)
  {
    assert v[i] == v[i..i + |AsciiChar(c)|][0];
  }

  lemma AsciiPassed(v: string, i: nat, c: char)
    requires StandsAt(v, i, AsciiChar(c))
    ensures CloseQuote(v, i) == CloseQuote(v, i + |AsciiChar(c)|)
  {
    if Letter(c).Some? || ' ' <= c <= '~' {
      ShortPassed(v, i, c);
    } else if c as nat < 0x1_0000 {
      UnitPassed(v, i, c as nat);
    } else {
      PairPassed(v, i, c);
    }
  }

  lemma StandsFirst(v: string, i: nat, e: string, rest: string)
    requires i <= |v| && v[i..] == e + rest
    ensures StandsAt(v, i, e) && v[i + |e|..] == rest
  {
    DropAt(v, i, e, rest);
    assert v[i..i + |e|] == e;
  }

  lemma AsciiNext(v: string, i: nat, c: char, rest: string)
    requires i <= |v| && v[i..] == AsciiChar(c) + rest
    ensures var n := |AsciiChar(c)|; i + n <= |v| && v[i + n..] == rest && CloseQuote(v, i) == CloseQuote(v, i + n)
  {
    StandsFirst(v, i, AsciiChar(c), rest);
    AsciiPassed(v, i, c);
  }

  lemma {:induction false} AsciiCloses(v: string, i: nat, k: string, tail: string)
    requires i <= |v| && v[i..] == Ascii(k) + ("\"" + tail)
    ensures CloseQuote(v, i) == i + |Ascii(k)| < |v|
    decreases |k|
  {
    if k == "" {
      DropAt(v, i, "\"", tail);
    } else {
      Assoc(AsciiChar(k[0]), Ascii(k[1..]), "\"" + tail);
      AsciiNext(v, i, k[0], Ascii(k[1..]) + ("\"" + tail));
      AsciiCloses(v, i + |AsciiChar(k[0])|, k[1..], tail);
    }
  }
}
