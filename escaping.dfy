/** The query-key escaper: a fixed table of eighteen characters, each written as
    `%` and its two upper-case hex digits; every other character is copied as is. */
module Escaping {
  import opened Wrappers

  /** The eighteen characters the table covers. */
  predicate IsReserved(c: char) {
    c == '!' || c == '#' || c == '$' || c == '&' || c == '\'' || c == '(' ||
    c == ')' || c == '*' || c == '+' || c == ',' || c == '/' || c == ':' ||
    c == ';' || c == '=' || c == '?' || c == '@' || c == '[' || c == ']'
  }

  /** An upper-case hex digit: `0`-`9`, then `A`-`F`. */
  function HexDigit(d: nat): (c: char)
    requires d < 16
    ensures '0' <= c <= '9' || 'A' <= c <= 'F'
  {
    if d < 10 then ('0' as int + d) as char else ('A' as int + d - 10) as char
  }

  /** The two upper-case hex digits of a code point below 256. */
  function Hex2(c: char): string
    requires c as int < 256
  {
    [HexDigit(c as int / 16), HexDigit(c as int % 16)]
  }

  /** The table `queryStringEscapes`: the code written after `%` for `c`, if any. */
  function EscapeCode(c: char): (r: Option<string>)
    ensures r.Some? <==> IsReserved(c)
  {
    match c
    case '!' => Some("21")
    case '#' => Some("23")
    case '$' => Some("24")
    case '&' => Some("26")
    case '\'' => Some("27")
    case '(' => Some("28")
    case ')' => Some("29")
    case '*' => Some("2A")
    case '+' => Some("2B")
    case ',' => Some("2C")
    case '/' => Some("2F")
    case ':' => Some("3A")
    case ';' => Some("3B")
    case '=' => Some("3D")
    case '?' => Some("3F")
    case '@' => Some("40")
    case '[' => Some("5B")
    case ']' => Some("5D")
    case _ => None
  }

  /** Every entry of the table is the upper-case hex code of its own character. */
  lemma EscapeCodeIsHex(c: char)
    requires IsReserved(c)
    ensures c as int < 256 && EscapeCode(c) == Some(Hex2(c))
  {
  }

  /** What one character of a key becomes. */
  function EscapeChar(c: char): (r: string)
    ensures IsReserved(c) ==> c as int < 256 && r == "%" + Hex2(c)
    ensures !IsReserved(c) ==> r == [c]
  {
    match EscapeCode(c)
    case Some(h) =>
      EscapeCodeIsHex(c);
      "%" + h
    case None => [c]
  }

  /** The escaped form of a whole key: each table character grows into three
      characters, everything else is kept, so the text grows by two per table character. */
  function Escape(s: string): (r: string)
    ensures |r| == |s| + 2 * ReservedCount(s)
  {
    if s == [] then "" else EscapeChar(s[0]) + Escape(s[1..])
  }

  /** No character of an escaped character is in the table: `%` is not, nor is a hex digit. */
  lemma EscapeCharAvoidsTable(c: char)
    ensures forall i :: 0 <= i < |EscapeChar(c)| ==> !IsReserved(EscapeChar(c)[i])
  {
    if IsReserved(c) {
      var hex := Hex2(c);
      assert EscapeChar(c) == ['%', hex[0], hex[1]];
    }
  }

  /** Escaping one more character appends that character's escape. */
  lemma EscapeSnoc(prefix: string, x: char)
    ensures Escape(prefix + [x]) == Escape(prefix) + EscapeChar(x)
  {
    EscapeAppend(prefix, [x]);
    assert Escape([x]) == EscapeChar(x) + Escape([]);
    assert EscapeChar(x) + [] == EscapeChar(x);
  }

  /** An escaped key never holds a table character. */
  lemma {:induction false} EscapeAvoidsTable(s: string)
    ensures forall i :: 0 <= i < |Escape(s)| ==> !IsReserved(Escape(s)[i])
  {
    if s != [] {
      EscapeCharAvoidsTable(s[0]);
      EscapeAvoidsTable(s[1..]);
      var head, tail := EscapeChar(s[0]), Escape(s[1..]);
      assert Escape(s) == head + tail;
      forall i | 0 <= i < |head + tail|
        ensures !IsReserved((head + tail)[i])
      {
        if i < |head| {
          assert (head + tail)[i] == head[i];
        } else {
          assert (head + tail)[i] == tail[i - |head|];
        }
      }
    }
  }

  /** The number of table characters in `s`. */
  function ReservedCount(s: string): nat
  {
    if s == [] then 0 else (if IsReserved(s[0]) then 1 else 0) + ReservedCount(s[1..])
  }

  /** Escaping works character by character: it distributes over concatenation. */
  lemma {:induction false} EscapeAppend(a: string, b: string)
    ensures Escape(a + b) == Escape(a) + Escape(b)
  {
    if a == [] {
      assert a + b == b;
    } else {
      var ab := a + b;
      assert ab[0] == a[0] && ab[1..] == a[1..] + b;
      var head, rest, tail := EscapeChar(a[0]), Escape(a[1..]), Escape(b);
      calc {
        Escape(ab);
        head + Escape(a[1..] + b);
        { EscapeAppend(a[1..], b); }
        head + (rest + tail);
        { Associative(head, rest, tail); }
        (head + rest) + tail;
      }
    }
  }

  lemma Associative(x: string, y: string, z: string)
    ensures x + (y + z) == (x + y) + z
  {
  }

  /** Text without table characters is left exactly as it is (this covers non-ASCII text). */
  lemma {:induction false} EscapeIdentity(s: string)
    requires forall i :: 0 <= i < |s| ==> !IsReserved(s[i])
    ensures Escape(s) == s
  {
    if s != [] {
      EscapeIdentity(s[1..]);
      assert [s[0]] + s[1..] == s;
    }
  }

  /** Escaping an escaped key changes nothing. */
  lemma EscapeIdempotent(s: string)
    ensures Escape(Escape(s)) == Escape(s)
  {
    EscapeAvoidsTable(s);
    EscapeIdentity(Escape(s));
  }

  /** An escaped key cannot hold the characters that delimit the query section
      (`&`, `=`) or start the fragment (`#`), nor a `?`. */
  lemma EscapedKeyHasNoDelimiters(s: string)
    ensures '&' !in Escape(s) && '=' !in Escape(s) && '#' !in Escape(s) && '?' !in Escape(s)
  {
    EscapeAvoidsTable(s);
    assert IsReserved('&') && IsReserved('=') && IsReserved('#') && IsReserved('?');
  }

  /** `%` is not in the table, so escaping is not injective: `!` and `%21` escape alike. */
  lemma EscapeNotInjective()
    ensures "!" != "%21" && Escape("!") == Escape("%21")
  {
    EscapeIdentity("%21");
  }

  /** `escapeQueryStringComponent`: the loop over the key's characters, appending
      to a builder. */
  method EscapeQueryStringComponent(component: string) returns (escaped: string)
    ensures escaped == Escape(component)
  {
    escaped := "";
    for i := 0 to |component|
      invariant escaped == Escape(component[..i])
    {
      var x := component[i];
      var code := EscapeCode(x);
      EscapeSnoc(component[..i], x);
      assert component[..i + 1] == component[..i] + [x];
      if code.Some? {
        escaped := escaped + ("%" + code.value);
      } else {
        escaped := escaped + [x];
      }
    }
    assert component[..|component|] == component;
  }
}
