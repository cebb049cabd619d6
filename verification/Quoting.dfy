/** strconv.Quote and strconv.Unquote for double-quoted text, and the scanner
    that finds the end of a quoted value. */
module Quoting {
  import opened Text
  import opened Model

  /** unicode.IsPrint is never true of control characters. */
  ghost predicate PrintsNoControls(isPrint: char -> bool)
  {
    forall c :: isPrint(c) ==> c >= ' ' && c != '\U{7F}'
  }

  function HexDigit(n: nat): char
    requires n < 16
  {
    if n < 10 then '0' + n as char else 'a' + (n - 10) as char
  }

  function Hex(n: nat, width: nat): (s: string)
    ensures |s| == width
  {
    if width == 0 then [] else Hex(n / 16, width - 1) + [HexDigit(n % 16)]
  }

  function HexValue(c: char): Option<nat>
  {
    if '0' <= c <= '9' then Some((c - '0') as nat)
    else if 'a' <= c <= 'f' then Some((c - 'a') as nat + 10)
    else if 'A' <= c <= 'F' then Some((c - 'A') as nat + 10)
    else None
  }

  function ParseHex(s: string): Option<nat>
  {
    if s == [] then Some(0)
    else
      match (ParseHex(s[..|s| - 1]), HexValue(s[|s| - 1]))
      case (Some(n), Some(d)) => Some(16 * n + d)
      case _ => None
  }

  predicate IsRune(n: nat)
  {
    n < 0xD800 || 0xE000 <= n < 0x11_0000
  }

  // ---------------------------------------------------------------------------
  // Quote

  /** The letter of a one-letter escape. */
  function ShortEscape(c: char): Option<char>
  {
    if c == '"' then Some('"')
    else if c == '\\' then Some('\\')
    else if c == '\U{07}' then Some('a')
    else if c == '\U{08}' then Some('b')
    else if c == '\U{0C}' then Some('f')
    else if c == '\n' then Some('n')
    else if c == '\r' then Some('r')
    else if c == '\t' then Some('t')
    else if c == '\U{0B}' then Some('v')
    else None
  }

  function EscapeRune(isPrint: char -> bool, c: char): (s: string)
    ensures s != []
  {
    if c == '"' || c == '\\' then ['\\', c]
    else if isPrint(c) then [c]
    else if ShortEscape(c).Some? then ['\\', ShortEscape(c).value]
    else if c < ' ' || c == '\U{7F}' then "\\x" + Hex(c as int, 2)
    else if (c as int) < 0x1_0000 then "\\u" + Hex(c as int, 4)
    else "\\U" + Hex(c as int, 8)
  }

  function Escape(isPrint: char -> bool, s: string): string
  {
    if s == [] then [] else EscapeRune(isPrint, s[0]) + Escape(isPrint, s[1..])
  }

  function Quote(isPrint: char -> bool, s: string): string
  {
    "\"" + Escape(isPrint, s) + "\""
  }

  // ---------------------------------------------------------------------------
  // Unquote

  function LetterOf(e: char): Option<char>
  {
    if e == '"' then Some('"')
    else if e == '\\' then Some('\\')
    else if e == 'a' then Some('\U{07}')
    else if e == 'b' then Some('\U{08}')
    else if e == 'f' then Some('\U{0C}')
    else if e == 'n' then Some('\n')
    else if e == 'r' then Some('\r')
    else if e == 't' then Some('\t')
    else if e == 'v' then Some('\U{0B}')
    else None
  }

  function HexWidth(e: char): nat
  {
    if e == 'x' then 2 else if e == 'u' then 4 else if e == 'U' then 8 else 0
  }

  /** The largest code a hexadecimal escape may name; `\x` beyond 0x7F is a raw byte. */
  predicate Encodes(e: char, n: nat)
  {
    IsRune(n) && (e == 'x' ==> n < 0x80)
  }

  /** The first character of escaped text and the rest. */
  function DecodeRune(s: string): Option<(char, string)>
    requires s != []
  {
    if s[0] == '"' || s[0] == '\n' then None
    else if s[0] != '\\' then Some((s[0], s[1..]))
    else if |s| < 2 then None
    else if LetterOf(s[1]).Some? then Some((LetterOf(s[1]).value, s[2..]))
    else
      var w := HexWidth(s[1]);
      if w == 0 || |s| < 2 + w then None
      else
        match ParseHex(s[2..2 + w])
        case None => None
        case Some(n) => if Encodes(s[1], n) then Some((n as char, s[2 + w..])) else None
  }

  function Unescape(s: string): Option<string>
    decreases |s|
  {
    if s == [] then Some([])
    else
      match DecodeRune(s)
      case None => None
      case Some((c, rest)) =>
        if |rest| < |s| then
          match Unescape(rest)
          case None => None
          case Some(t) => Some([c] + t)
        else None
  }

  function Unquote(s: string): Option<string>
  {
    if |s| >= 2 && s[0] == '"' && s[|s| - 1] == '"' then Unescape(s[1..|s| - 1]) else None
  }

  // ---------------------------------------------------------------------------
  // splitQuotedINIValue

  /** Where the value that starts with a quote ends: the index of the first quote
      from i on that is not escaped. */
  function ClosingQuote(s: string, i: nat, escaped: bool): Option<nat>
    requires i <= |s|
    decreases |s| - i
  {
    if i == |s| then None
    else if escaped then ClosingQuote(s, i + 1, false)
    else if s[i] == '\\' then ClosingQuote(s, i + 1, true)
    else if s[i] == '"' then Some(i)
    else ClosingQuote(s, i + 1, false)
  }

  lemma {:induction false} ClosingQuoteInRange(s: string, i: nat, escaped: bool)
    requires i <= |s|
    ensures var q := ClosingQuote(s, i, escaped); q.Some? ==> i <= q.value < |s| && s[q.value] == '"'
    decreases |s| - i
  {
    if i < |s| {
      ClosingQuoteInRange(s, i + 1, false);
      ClosingQuoteInRange(s, i + 1, true);
    }
  }

  function SplitQuoted(value: string): Option<(string, string)>
    requires value != []
  {
    ClosingQuoteInRange(value, 1, false);
    match ClosingQuote(value, 1, false)
    case None => None
    case Some(q) => Some((value[..q + 1], TrimSpace(value[q + 1..])))
  }

  method SplitQuotedINIValue(value: string) returns (result: Option<(string, string)>)
    requires value != []
    ensures result == SplitQuoted(value)
  {
    var escaped := false;
    for index := 1 to |value|
      invariant ClosingQuote(value, index, escaped) == ClosingQuote(value, 1, false)
    {
      if escaped {
        escaped := false;
      } else if value[index] == '\\' {
        escaped := true;
      } else if value[index] == '"' {
        return Some((value[..index + 1], TrimSpace(value[index + 1..])));
      }
    }
    return None;
  }

  // ---------------------------------------------------------------------------
  // Round trip

  lemma HexDigitParses(n: nat)
    requires n < 16
    ensures HexValue(HexDigit(n)) == Some(n)
  {
  }

  function Power16(width: nat): nat { if width == 0 then 1 else 16 * Power16(width - 1) }

  lemma {:induction false} HexParses(n: nat, width: nat)
    requires n < Power16(width)
    ensures ParseHex(Hex(n, width)) == Some(n)
  {
    if width > 0 {
      HexParses(n / 16, width - 1);
      HexDigitParses(n % 16);
      assert Hex(n, width)[..width - 1] == Hex(n / 16, width - 1);
    }
  }

  lemma Powers()
    ensures Power16(2) == 0x100 && Power16(4) == 0x1_0000 && Power16(8) == 0x1_0000_0000
  {
  }

  lemma DecodeHex(letter: char, c: char, rest: string)
    requires letter in {'x', 'u', 'U'} && Encodes(letter, c as int) && (c as int) < Power16(HexWidth(letter))
    ensures DecodeRune(['\\', letter] + Hex(c as int, HexWidth(letter)) + rest) == Some((c, rest))
  {
    var width := HexWidth(letter);
    var s := ['\\', letter] + Hex(c as int, width) + rest;
    HexParses(c as int, width);
    hide Hex, ParseHex, Power16;
    assert s[2..2 + width] == Hex(c as int, width);
    assert s[2 + width..] == rest;
  }

  lemma DecodeShort(c: char, letter: char, rest: string)
    requires LetterOf(letter) == Some(c)
    ensures DecodeRune(['\\', letter] + rest) == Some((c, rest))
  {
  }

  lemma DecodeEscaped(isPrint: char -> bool, c: char, rest: string)
    requires PrintsNoControls(isPrint)
    ensures DecodeRune(EscapeRune(isPrint, c) + rest) == Some((c, rest))
  {
    var e := EscapeRune(isPrint, c);
    if c == '"' || c == '\\' {
      DecodeShort(c, c, rest);
    } else if isPrint(c) {
      assert (e + rest)[1..] == rest;
    } else if ShortEscape(c).Some? {
      DecodeShort(c, ShortEscape(c).value, rest);
    } else {
      Powers();
      hide Power16, DecodeRune;
      DecodeHex(e[1], c, rest);
    }
  }

  lemma {:induction false} UnescapeEscaped(isPrint: char -> bool, s: string)
    requires PrintsNoControls(isPrint)
    ensures Unescape(Escape(isPrint, s)) == Some(s)
  {
    if s != [] {
      DecodeEscaped(isPrint, s[0], Escape(isPrint, s[1..]));
      UnescapeEscaped(isPrint, s[1..]);
      assert s == [s[0]] + s[1..];
    }
  }

  /** Every text survives quoting, whatever quotes, backslashes, line breaks or
      unprintable characters it has. */
  lemma UnquoteQuoted(isPrint: char -> bool, s: string)
    requires PrintsNoControls(isPrint)
    ensures Unquote(Quote(isPrint, s)) == Some(s)
  {
    var q := Quote(isPrint, s);
    assert q[1..|q| - 1] == Escape(isPrint, s);
    UnescapeEscaped(isPrint, s);
  }

  // ---------------------------------------------------------------------------
  // Quoted text is one line and its closing quote is the last character

  lemma {:induction false} HexIsPlain(n: nat, width: nat)
    ensures forall c :: c in Hex(n, width) ==> IsPlain(c)
  {
    if width > 0 {
      HexIsPlain(n / 16, width - 1);
    }
  }

  /** Neither a delimiter of quoted text nor a control character. */
  predicate IsPlain(c: char)
  {
    c != '"' && c != '\\' && c >= ' '
  }

  /** An escaped character is plain text, or a backslash and one more character
      followed by plain text. */
  lemma EscapeShape(isPrint: char -> bool, c: char)
    requires PrintsNoControls(isPrint)
    ensures var e := EscapeRune(isPrint, c);
            if e[0] == '\\' then |e| >= 2 && e[1] >= ' ' && forall i :: 2 <= i < |e| ==> IsPlain(e[i])
            else |e| == 1 && IsPlain(e[0])
  {
    var e := EscapeRune(isPrint, c);
    if e[0] == '\\' && |e| > 2 {
      HexIsPlain(c as int, |e| - 2);
      forall i | 2 <= i < |e| ensures IsPlain(e[i]) {
        assert e[i] in Hex(c as int, |e| - 2);
      }
    }
  }

  lemma {:induction false} EscapeHasNoControls(isPrint: char -> bool, s: string)
    requires PrintsNoControls(isPrint)
    ensures forall c :: c in Escape(isPrint, s) ==> c >= ' '
  {
    if s != [] {
      EscapeShape(isPrint, s[0]);
      EscapeHasNoControls(isPrint, s[1..]);
    }
  }

  lemma {:induction false} SkipsPlain(s: string, i: nat, j: nat)
    requires i <= j <= |s| && forall k :: i <= k < j ==> IsPlain(s[k])
    ensures ClosingQuote(s, i, false) == ClosingQuote(s, j, false)
    decreases j - i
  {
    if i < j {
      SkipsPlain(s, i + 1, j);
    }
  }

  /** The text e stands in s at position i. */
  ghost predicate StandsAt(s: string, i: nat, e: string)
  {
    i + |e| <= |s| && forall k :: 0 <= k < |e| ==> s[i + k] == e[k]
  }

  lemma StandsSplit(s: string, i: nat, a: string, b: string)
    requires StandsAt(s, i, a + b)
    ensures StandsAt(s, i, a) && StandsAt(s, i + |a|, b)
  {
    forall k | 0 <= k < |a| ensures s[i + k] == a[k] {
      assert (a + b)[k] == a[k];
    }
    forall k | 0 <= k < |b| ensures s[i + |a| + k] == b[k] {
      assert (a + b)[|a| + k] == b[k];
      assert s[i + (|a| + k)] == (a + b)[|a| + k];
    }
  }

  predicate EscapedShape(e: string)
  {
    && |e| > 0
    && if e[0] == '\\' then |e| >= 2 && forall i :: 2 <= i < |e| ==> IsPlain(e[i]) else |e| == 1 && IsPlain(e[0])
  }

  lemma SkipsOne(s: string, i: nat, e: string)
    requires StandsAt(s, i, e) && EscapedShape(e)
    ensures ClosingQuote(s, i, false) == ClosingQuote(s, i + |e|, false)
  {
    var j := i + |e|;
    assert s[i] == s[i + 0] == e[0];
    if e[0] == '\\' {
      forall k | i + 2 <= k < j ensures IsPlain(s[k]) {
        assert s[i + (k - i)] == e[k - i];
      }
      assert ClosingQuote(s, i, false) == ClosingQuote(s, i + 2, false);
      SkipsPlain(s, i + 2, j);
    } else {
      SkipsPlain(s, i, j);
    }
  }

  lemma {:induction false} SkipsEscaped(isPrint: char -> bool, text: string, s: string, i: nat)
    requires PrintsNoControls(isPrint) && i + |Escape(isPrint, text)| <= |s| && StandsAt(s, i, Escape(isPrint, text))
    ensures ClosingQuote(s, i, false) == ClosingQuote(s, i + |Escape(isPrint, text)|, false)
  {
    hide ClosingQuote, EscapeRune, StandsAt, IsPlain, PrintsNoControls;
    if text != [] {
      var e, rest := EscapeRune(isPrint, text[0]), Escape(isPrint, text[1..]);
      EscapeShape(isPrint, text[0]);
      StandsSplit(s, i, e, rest);
      SkipsOne(s, i, e);
      SkipsEscaped(isPrint, text[1..], s, i + |e|);
    }
  }

  /** The scanner stops exactly at the quote that Quote put last. */
  lemma SplitQuotedQuoted(isPrint: char -> bool, text: string)
    requires PrintsNoControls(isPrint)
    ensures SplitQuoted(Quote(isPrint, text)) == Some((Quote(isPrint, text), ""))
  {
    var q, e := Quote(isPrint, text), Escape(isPrint, text);
    assert StandsAt(q, 1, e);
    SkipsEscaped(isPrint, text, q, 1);
    assert ClosingQuote(q, 1 + |e|, false) == Some(1 + |e|);
    assert q[..|q|] == q && q[|q|..] == "";
  }
}
