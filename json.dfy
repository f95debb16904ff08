/**
  * The JSON text the proxy writes as an error body, `JSON.stringify({error: message})`:
  * the string escaping of ECMAScript's QuoteJSONString, and its inverse.
  */
module Json {
  import opened Wrappers

  /** The lowercase hexadecimal digit of `n`, as JSON.stringify writes it in a `\u` escape. */
  function HexDigit(n: nat): (c: char)
    requires n < 16
    ensures HexValue(c) == Some(n)
  {
    if n < 10 then ('0' as int + n) as char else ('a' as int + n - 10) as char
  }

  /** The value of a hexadecimal digit of either case. */
  function HexValue(c: char): (r: Option<nat>)
    ensures r.Some? ==> r.value < 16
  {
    if '0' <= c <= '9' then Some(c as int - '0' as int)
    else if 'a' <= c <= 'f' then Some(c as int - 'a' as int + 10)
    else if 'A' <= c <= 'F' then Some(c as int - 'A' as int + 10)
    else None
  }

  /** A character JSON.stringify copies unchanged into a string literal. */
  predicate Plain(c: char)
  {
    c as int >= 0x20 && c != '"' && c != '\\'
  }

  /** The characters JSON.stringify writes for `c` inside a string literal. */
  function EscapeChar(c: char): string
  {
    var n := c as int;
    if n == 0x8 then "\\b"
    else if n == 0x9 then "\\t"
    else if n == 0xA then "\\n"
    else if n == 0xC then "\\f"
    else if n == 0xD then "\\r"
    else if c == '"' then "\\\""
    else if c == '\\' then "\\\\"
    else if n < 0x20 then "\\u00" + [HexDigit(n / 16), HexDigit(n % 16)]
    else [c]
  }

  /** The strings of `parts` joined end to end. */
  function Concat(parts: seq<string>): string
  {
    if parts == [] then [] else parts[0] + Concat(parts[1..])
  }

  /** The inside of the string literal JSON.stringify writes for `s`: each character escaped in turn. */
  function Escape(s: string): string
  {
    Concat(seq(|s|, i requires 0 <= i < |s| => EscapeChar(s[i])))
  }

  /** Escaping a non-empty string escapes its first character, then the rest. */
  lemma EscapeCons(s: string)
    requires s != []
    ensures Escape(s) == EscapeChar(s[0]) + Escape(s[1..])
  {
    var parts := seq(|s|, i requires 0 <= i < |s| => EscapeChar(s[i]));
    assert parts[1..] == seq(|s| - 1, i requires 0 <= i < |s| - 1 => EscapeChar(s[1..][i]));
  }

  /** `JSON.stringify(s)` for a string `s`. */
  function Quote(s: string): string
  {
    "\"" + Escape(s) + "\""
  }

  /** `JSON.stringify({error: message})`: the error envelope of every failure body. */
  function ErrorBody(message: string): string
  {
    "{\"error\":" + Quote(message) + "}"
  }

  /** The character a two-character escape `\e` stands for. */
  function ShortEscape(e: char): Option<char>
  {
    match e
    case 'b' => Some(8 as char)
    case 't' => Some(9 as char)
    case 'n' => Some(10 as char)
    case 'f' => Some(12 as char)
    case 'r' => Some(13 as char)
    case '"' => Some('"')
    case '\\' => Some('\\')
    case '/' => Some('/')
    case _ => None
  }

  /** The value of four hexadecimal digits. */
  function HexQuad(d: string): Option<nat>
    requires |d| == 4
  {
    match (HexValue(d[0]), HexValue(d[1]), HexValue(d[2]), HexValue(d[3]))
    case (Some(a), Some(b), Some(c), Some(e)) => Some(((a * 16 + b) * 16 + c) * 16 + e)
    case _ => None
  }

  function Prepend(c: char, rest: Option<string>): Option<string>
  {
    match rest
    case None => None
    case Some(t) => Some([c] + t)
  }

  /** Reads the inside of a JSON string literal back into the string it denotes. */
  function Unescape(s: string): Option<string>
    decreases |s|
  {
    if s == [] then Some([])
    else if s[0] == '\\' then
      if |s| < 2 then None
      else if s[1] == 'u' then
        if |s| < 6 then None
        else match HexQuad(s[2..6])
          case None => None
          case Some(n) =>
            if 0xD800 <= n < 0xE000 then None else Prepend(n as char, Unescape(s[6..]))
      else match ShortEscape(s[1])
        case None => None
        case Some(c) => Prepend(c, Unescape(s[2..]))
    else if !Plain(s[0]) then None
    else Prepend(s[0], Unescape(s[1..]))
  }

  /** Reading back the escape of one character gives that character in front of the rest. */
  lemma UnescapeChar(c: char, t: string)
    ensures Unescape(EscapeChar(c) + t) == Prepend(c, Unescape(t))
  {
    var n := c as int;
    var s := EscapeChar(c) + t;
    if Plain(c) {
      assert s[1..] == t;
    } else if n == 0x8 || n == 0x9 || n == 0xA || n == 0xC || n == 0xD || c == '"' || c == '\\' {
      assert s[2..] == t;
    } else {
      var hi, lo := n / 16, n % 16;
      assert s[2..6] == ['0', '0', HexDigit(hi), HexDigit(lo)];
      assert HexQuad(s[2..6]) == Some(hi * 16 + lo);
      assert s[6..] == t;
    }
  }

  /** Escaping is reversible: reading JSON.stringify's output back gives the original string. */
  lemma {:induction false} EscapeRoundTrip(s: string)
    ensures Unescape(Escape(s)) == Some(s)
  {
    if s != [] {
      EscapeCons(s);
      UnescapeChar(s[0], Escape(s[1..]));
      EscapeRoundTrip(s[1..]);
      assert [s[0]] + s[1..] == s;
    }
  }

  /** A character is written as it is exactly when it is plain. */
  lemma EscapeCharPlain(c: char)
    ensures Plain(c) <==> EscapeChar(c) == [c]
  {
  }

  /** A string of plain characters is written as it is. */
  lemma {:induction false} EscapePlain(s: string)
    requires forall i :: 0 <= i < |s| ==> Plain(s[i])
    ensures Escape(s) == s
  {
    if s != [] {
      EscapeCons(s);
      EscapeCharPlain(s[0]);
      EscapePlain(s[1..]);
      assert [s[0]] + s[1..] == s;
    }
  }
}
