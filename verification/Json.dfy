/** Error messages as JSON strings. The reader is section 7 of RFC 8259, written
    without regard to the writer. */
module Json {
  import opened Wrappers

  function HexDigit(n: nat): char
    requires n < 16
  {
    if n < 10 then (n + '0' as int) as char else (n - 10 + 'a' as int) as char
  }

  /** Four hexadecimal digits, zero-padded. */
  function Hex4(n: nat): string
    requires n < 0x10000
  {
    [HexDigit(n / 0x1000), HexDigit(n / 0x100 % 16), HexDigit(n / 0x10 % 16), HexDigit(n % 16)]
  }

  function EscapeChar(c: char): string {
    if c == '"' then "\\\""
    else if c == '\\' then "\\\\"
    else if c == '\n' then "\\n"
    else if c == '\r' then "\\r"
    else if c == '\t' then "\\t"
    else if c < ' ' then "\\u" + Hex4(c as nat)
    else [c]
  }

  function Escape(s: string): string {
    if s == "" then "" else EscapeChar(s[0]) + Escape(s[1..])
  }

  /** The writer's loop, growing one string from the left. */
  method EscapeJsonString(s: string) returns (result: string)
    ensures result == Escape(s)
  {
    result := "";
    var i := 0;
    while i < |s|
      invariant 0 <= i <= |s|
      invariant result + Escape(s[i..]) == Escape(s)
    {
      var piece := EscapeChar(s[i]);
      hide EscapeChar;
      assert s[i..][1..] == s[i + 1..];
      assert result + (piece + Escape(s[i + 1..])) == (result + piece) + Escape(s[i + 1..]);
      result := result + piece;
      i := i + 1;
    }
  }

  // ----- the reader

  function HexValue(c: char): Option<nat> {
    if '0' <= c <= '9' then Some(c as nat - '0' as nat)
    else if 'a' <= c <= 'f' then Some(c as nat - 'a' as nat + 10)
    else if 'A' <= c <= 'F' then Some(c as nat - 'A' as nat + 10)
    else None
  }

  /** The code unit of a \uXXXX escape, the digits starting at s[0]. */
  function CodeUnit(s: string): (u: Option<nat>)
    ensures u.Some? ==> u.value < 0x10000
  {
    if |s| < 4 then None
    else
      match (HexValue(s[0]), HexValue(s[1]), HexValue(s[2]), HexValue(s[3]))
      case (Some(a), Some(b), Some(c), Some(d)) => Some(((a * 16 + b) * 16 + c) * 16 + d)
      case _ => None
  }

  /** The character at the front of a string's contents and how much it takes up;
      None if there is none: at a quotation mark, at a control character, or at an
      escape that is not one. Two escaped surrogates make one character. */
  function ReadChar(s: string): (r: Option<(char, nat)>)
    ensures r.Some? ==> 0 < r.value.1 <= |s|
  {
    if s == "" || s[0] == '"' || s[0] < ' ' then None
    else if s[0] != '\\' then Some((s[0], 1))
    else if |s| == 1 then None
    else
      match s[1]
      case '"' => Some(('"', 2))
      case '\\' => Some(('\\', 2))
      case '/' => Some(('/', 2))
      case 'b' => Some(('\U{8}', 2))
      case 'f' => Some(('\U{C}', 2))
      case 'n' => Some(('\n', 2))
      case 'r' => Some(('\r', 2))
      case 't' => Some(('\t', 2))
      case 'u' =>
        var high := CodeUnit(s[2..]);
        if high == None then None
        else if high.value < 0xD800 || 0xE000 <= high.value then Some((high.value as char, 6))
        else if high.value >= 0xDC00 || |s| < 8 || s[6] != '\\' || s[7] != 'u' then None
        else
          var low := CodeUnit(s[8..]);
          if low == None || low.value < 0xDC00 || 0xE000 <= low.value then None
          else Some(((0x10000 + (high.value - 0xD800) * 0x400 + (low.value - 0xDC00)) as char, 12))
      case _ => None
  }

  /** Reads a string's contents up to the quotation mark that closes it; gives them
      and what follows the mark. */
  function ReadString(s: string): Option<(string, string)>
    decreases |s|
  {
    if s != "" && s[0] == '"' then Some(("", s[1..]))
    else
      match ReadChar(s)
      case None => None
      case Some((c, n)) =>
        match ReadString(s[n..])
        case None => None
        case Some((contents, rest)) => Some(([c] + contents, rest))
  }

  lemma HexReadsBack(n: nat)
    requires n < 0x20
    ensures CodeUnit(Hex4(n)) == Some(n)
  {
    assert HexValue(HexDigit(n / 16)) == Some(n / 16) && HexValue(HexDigit(n % 16)) == Some(n % 16);
    assert HexValue(HexDigit(0)) == Some(0);
  }

  lemma CharReadsBack(c: char, rest: string)
    ensures ReadChar(EscapeChar(c) + rest) == Some((c, |EscapeChar(c)|))
    ensures (EscapeChar(c) + rest)[0] != '"'
  {
    var e := EscapeChar(c);
    if |e| == 6 {
      HexReadsBack(c as nat);
      assert (e + rest)[2..][..4] == Hex4(c as nat);
      assert CodeUnit((e + rest)[2..]) == CodeUnit(Hex4(c as nat));
    }
  }

  /** Whatever message is written and whatever follows it, a reader gets the
      message back and resumes exactly behind the closing mark: the contents never
      end the literal early and never run past it. */
  lemma {:induction false} MessageReadsBack(message: string, rest: string)
    ensures ReadString(Escape(message) + "\"" + rest) == Some((message, rest))
    decreases |message|
  {
    var text := Escape(message) + "\"" + rest;
    if message == "" {
      assert text == ['"'] + rest;
    } else {
      var e, tail := EscapeChar(message[0]), Escape(message[1..]) + "\"" + rest;
      assert text == e + tail;
      CharReadsBack(message[0], tail);
      assert text[|e|..] == tail;
      MessageReadsBack(message[1..], rest);
      assert [message[0]] + message[1..] == message;
    }
  }

  /** So different messages are written differently. */
  lemma WritingIsOneToOne(a: string, b: string)
    requires Escape(a) == Escape(b)
    ensures a == b
  {
    MessageReadsBack(a, "");
    MessageReadsBack(b, "");
  }
}
