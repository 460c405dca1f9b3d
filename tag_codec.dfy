/**
 * The JSON text under which the catalogue stores a record's tags (`json.dumps` with its
 * defaults: every character outside printable ASCII escaped, items separated by ", "), and the
 * decoder that reads it back, for JSON texts that are arrays of strings (section 7 of RFC 8259
 * for the string escapes).
 */
module TagCodec {
  import opened Wrappers

  /** The lower-case hexadecimal digit of `d`. */
  function HexDigit(d: nat): (c: char)
    requires d < 16
    ensures IsHexDigit(c) && HexDigitValue(c) == d
  {
    if d < 10 then ('0' as int + d) as char else ('a' as int + d - 10) as char
  }

  predicate IsHexDigit(c: char) {
    '0' <= c <= '9' || 'a' <= c <= 'f' || 'A' <= c <= 'F'
  }

  function HexDigitValue(c: char): (d: nat)
    requires IsHexDigit(c)
    ensures d < 16
  {
    if '0' <= c <= '9' then c as int - '0' as int
    else if 'a' <= c <= 'f' then c as int - 'a' as int + 10
    else c as int - 'A' as int + 10
  }

  /** Four hexadecimal digits of `n`, most significant first (`'{0:04x}'.format(n)`). */
  function Hex4(n: nat): (r: string)
    requires n < 0x10000
    ensures |r| == 4 && HexAt(r, 0) && HexValueAt(r, 0) == n
  {
    Hex4Digits(n);
    HexDigits(n, 4)
  }

  /** The last `width` lower-case hexadecimal digits of `n`, most significant first. */
  function HexDigits(n: nat, width: nat): (r: string)
    ensures |r| == width
    decreases width
  {
    if width == 0 then [] else HexDigits(n / 16, width - 1) + [HexDigit(n % 16)]
  }

  /** Four digits are enough for a number below 0x10000, and they read back as it. */
  lemma Hex4Digits(n: nat)
    requires n < 0x10000
    ensures HexAt(HexDigits(n, 4), 0) && HexValueAt(HexDigits(n, 4), 0) == n
  {
    var a := n / 16;
    var b := a / 16;
    var c := b / 16;
    assert n == a * 16 + n % 16 && a == b * 16 + a % 16 && b == c * 16 + b % 16;
    assert c < 16;
    var r := [HexDigit(c % 16), HexDigit(b % 16), HexDigit(a % 16), HexDigit(n % 16)];
    assert HexDigits(c, 1) == [HexDigit(c % 16)];
    assert HexDigits(b, 2) == r[..2];
    assert HexDigits(a, 3) == r[..3];
    assert HexDigits(n, 4) == r;
    assert HexDigitValue(r[0]) == c % 16 == c && HexDigitValue(r[1]) == b % 16;
    assert HexDigitValue(r[2]) == a % 16 && HexDigitValue(r[3]) == n % 16;
    assert HexValueAt(r, 0) == c * 4096 + (b % 16) * 256 + (a % 16) * 16 + n % 16 == n;
  }

  /** Four hexadecimal digits, either case, start at position `k` of `s`. */
  predicate HexAt(s: string, k: nat) {
    k + 4 <= |s| && IsHexDigit(s[k]) && IsHexDigit(s[k + 1]) && IsHexDigit(s[k + 2]) && IsHexDigit(s[k + 3])
  }

  /** The value of the four hexadecimal digits at position `k`. */
  function HexValueAt(s: string, k: nat): (n: nat)
    requires HexAt(s, k)
    ensures n < 0x10000
  {
    HexDigitValue(s[k]) * 4096 + HexDigitValue(s[k + 1]) * 256 + HexDigitValue(s[k + 2]) * 16 + HexDigitValue(s[k + 3])
  }

  /** A character `json.dumps` writes as it is: printable ASCII other than `"` and `\`. */
  predicate Plain(c: char) {
    ' ' <= c <= '~' && c != '"' && c != '\\'
  }

  /** How `json.dumps` writes one character of a string. */
  function EscapeChar(c: char): (r: string)
    ensures r != [] && r[0] != '"'
    ensures r[0] == c || r[0] == '\\'
  {
    if Plain(c) then [c]
    else if ShortEscape(c) != [] then ShortEscape(c)
    else UnicodeEscape(c as int)
  }

  /** The two-character escapes of `"`, `\\`, new line, carriage return, tab, backspace and form feed. */
  function ShortEscape(c: char): (r: string)
    ensures r == [] || (|r| == 2 && r[0] == '\\')
  {
    if c == '"' then "\\\""
    else if c == '\\' then "\\\\"
    else if c == '\n' then "\\n"
    else if c == '\r' then "\\r"
    else if c == '\t' then "\\t"
    else if c as int == 8 then "\\b"
    else if c as int == 12 then "\\f"
    else []
  }

  /** `\\uXXXX`, or a surrogate pair of them above the Basic Multilingual Plane. */
  function UnicodeEscape(n: nat): (r: string)
    requires n < 0x110000
    ensures |r| >= 6 && r[0] == '\\'
  {
    if n < 0x10000 then "\\u" + Hex4(n)
    else
      var v := n - 0x10000;
      "\\u" + Hex4(0xD800 + v / 0x400) + "\\u" + Hex4(0xDC00 + v % 0x400)
  }

  /** A string's characters, each escaped. */
  function EscapeString(s: string): string
    decreases |s|
  {
    if s == [] then [] else EscapeChar(s[0]) + EscapeString(s[1..])
  }

  /** A JSON string literal. */
  function EncodeString(s: string): string {
    "\"" + EscapeString(s) + "\""
  }

  /** The items of a non-empty list, separated by ", ". */
  function EncodeItems(tags: seq<string>): string
    requires tags != []
    decreases |tags|
  {
    if |tags| == 1 then EncodeString(tags[0]) else EncodeString(tags[0]) + ", " + EncodeItems(tags[1..])
  }

  /** `json.dumps(tags)` */
  function Encode(tags: seq<string>): (r: string)
    ensures r != [] && r[0] == '['
  {
    if tags == [] then "[]" else "[" + EncodeItems(tags) + "]"
  }

  /** The characters `json.loads` skips between tokens. */
  predicate IsJsonSpace(c: char) {
    c == ' ' || c == '\t' || c == '\n' || c == '\r'
  }

  function SkipSpace(s: string): (r: string)
    ensures |r| <= |s|
    ensures r == [] || !IsJsonSpace(r[0])
    decreases |s|
  {
    if s != [] && IsJsonSpace(s[0]) then SkipSpace(s[1..]) else s
  }

  /**
   * The character an escape or plain character at the head of a string literal's body stands
   * for, and how many input characters it takes. A surrogate pair makes one character; a lone
   * surrogate, an unknown escape and an unescaped control character are errors.
   */
  function NextChar(s: string): (r: Option<(char, nat)>)
    requires s != [] && s[0] != '"'
    ensures r.Some? ==> 0 < r.value.1 <= |s|
  {
    if s[0] == '\\' then
      if |s| < 2 then None
      else if s[1] == '"' then Some(('"', 2))
      else if s[1] == '\\' then Some(('\\', 2))
      else if s[1] == '/' then Some(('/', 2))
      else if s[1] == 'b' then Some((8 as char, 2))
      else if s[1] == 'f' then Some((12 as char, 2))
      else if s[1] == 'n' then Some(('\n', 2))
      else if s[1] == 'r' then Some(('\r', 2))
      else if s[1] == 't' then Some(('\t', 2))
      else if s[1] == 'u' && HexAt(s, 2) then
        var n := HexValueAt(s, 2);
        if 0xD800 <= n < 0xDC00 then
          if |s| >= 12 && s[6] == '\\' && s[7] == 'u' && HexAt(s, 8)
             && 0xDC00 <= HexValueAt(s, 8) < 0xE000 then
            Some(((0x10000 + (n - 0xD800) * 0x400 + (HexValueAt(s, 8) - 0xDC00)) as char, 12))
          else None
        else if 0xDC00 <= n < 0xE000 then None
        else Some((n as char, 6))
      else None
    else if (s[0] as int) < 0x20 then None
    else Some((s[0], 1))
  }

  /** The body of a string literal up to its closing quote, and what follows the quote. */
  function ParseChars(s: string): (r: Option<(string, string)>)
    ensures r.Some? ==> |r.value.1| < |s|
    decreases |s|
  {
    if s == [] then None
    else if s[0] == '"' then Some(([], s[1..]))
    else match NextChar(s)
      case None => None
      case Some((c, n)) =>
        match ParseChars(s[n..])
        case None => None
        case Some((body, rest)) => Some(([c] + body, rest))
  }

  /** The string items of an array after its `[`, up to and including its `]`. */
  function ParseItems(s: string): (r: Option<(seq<string>, string)>)
    ensures r.Some? ==> |r.value.1| < |s|
    decreases |s|, 1
  {
    ParseItemsAt(SkipSpace(s))
  }

  /** `ParseItems` once the white space in front of the first item is skipped. */
  function ParseItemsAt(s1: string): (r: Option<(seq<string>, string)>)
    ensures r.Some? ==> |r.value.1| < |s1|
    decreases |s1|, 0
  {
    if s1 == [] || s1[0] != '"' then None
    else match ParseChars(s1[1..])
      case None => None
      case Some((item, rest)) =>
        var r1 := SkipSpace(rest);
        if r1 == [] then None
        else if r1[0] == ']' then Some(([item], r1[1..]))
        else if r1[0] == ',' then Prepend(item, ParseItems(r1[1..]))
        else None
  }

  /** The items read after the first one, with the first put in front. */
  function Prepend(item: string, r: Option<(seq<string>, string)>): Option<(seq<string>, string)> {
    if r.None? then None else Some(([item] + r.value.0, r.value.1))
  }

  /**
   * `json.loads` on a stored tags text: the list of strings it holds, or nothing when the
   * text is not a JSON array of strings with only white space around it.
   */
  function Decode(text: string): Option<seq<string>> {
    var s := SkipSpace(text);
    if s == [] || s[0] != '[' then None
    else
      var s1 := SkipSpace(s[1..]);
      if s1 != [] && s1[0] == ']' then
        if SkipSpace(s1[1..]) == [] then Some([]) else None
      else match ParseItems(s1)
        case None => None
        case Some((items, rest)) => if SkipSpace(rest) == [] then Some(items) else None
  }

  /** A text that starts with something other than white space is not skipped into. */
  lemma SkipSpaceNone(s: string)
    requires s != [] && !IsJsonSpace(s[0])
    ensures SkipSpace(s) == s
  {
  }

  /** An escaped character reads back as itself, whatever follows it. */
  lemma NextCharEscape(c: char, t: string)
    ensures var s := EscapeChar(c) + t;
      s[0] != '"' && NextChar(s) == Some((c, |EscapeChar(c)|))
  {
    if Plain(c) {
      assert (EscapeChar(c) + t)[0] == c;
    } else if ShortEscape(c) != [] {
      NextCharShort(c, t);
    } else if c as int < 0x10000 {
      assert EscapeChar(c) == UnicodeEscape(c as int);
      NextCharBasic(c as int, t);
    } else {
      assert EscapeChar(c) == UnicodeEscape(c as int);
      NextCharPair(c as int, t);
    }
  }

  lemma NextCharShort(c: char, t: string)
    requires !Plain(c) && ShortEscape(c) != []
    ensures var s := EscapeChar(c) + t;
      s[0] != '"' && NextChar(s) == Some((c, |EscapeChar(c)|))
  {
    var e := ShortEscape(c);
    assert EscapeChar(c) == e;
    assert (e + t)[0] == '\\' && (e + t)[1] == e[1];
  }

  /**
   * A character of the Basic Multilingual Plane that needs a `\u` escape reads back from it:
   * surrogates are characters of their own in Python but not here, so none is escaped this way.
   */
  lemma NextCharBasic(n: int, t: string)
    requires 0 <= n < 0x10000 && !(0xD800 <= n < 0xE000)
    ensures var s := UnicodeEscape(n) + t;
      s[0] != '"' && NextChar(s) == Some((n as char, 6))
  {
    HexShift(Hex4(n), "\\u", t);
  }

  /** A code point above the Basic Multilingual Plane is written as a surrogate pair of `\u` escapes. */
  lemma NextCharPair(n: int, t: string)
    requires 0x10000 <= n < 0x110000
    ensures var s := UnicodeEscape(n) + t;
      s[0] != '"' && NextChar(s) == Some((n as char, 12))
  {
    SurrogateHalves(n);
    NextCharSurrogates(Hex4(0xD800 + (n - 0x10000) / 0x400), Hex4(0xDC00 + (n - 0x10000) % 0x400), t);
  }

  /** Two `\u` escapes of a high and a low surrogate read as the one character they encode. */
  lemma NextCharSurrogates(hi: string, lo: string, t: string)
    requires |hi| == 4 && HexAt(hi, 0) && 0xD800 <= HexValueAt(hi, 0) < 0xDC00
    requires |lo| == 4 && HexAt(lo, 0) && 0xDC00 <= HexValueAt(lo, 0) < 0xE000
    ensures var s := "\\u" + hi + "\\u" + lo + t;
      s[0] != '"' && |s| >= 12 &&
      NextChar(s) == Some(((0x10000 + (HexValueAt(hi, 0) - 0xD800) * 0x400 + (HexValueAt(lo, 0) - 0xDC00)) as char, 12))
  {
    var s := "\\u" + hi + "\\u" + lo + t;
    assert s[0] == '\\' && s[1] == 'u' && s[6] == '\\' && s[7] == 'u';
    assert s == "\\u" + hi + ("\\u" + lo + t);
    HexShift(hi, "\\u", "\\u" + lo + t);
    assert s == "\\u" + hi + "\\u" + lo + t;
    HexShift(lo, "\\u" + hi + "\\u", t);
  }

  /** Four digits keep their value behind any prefix. */
  lemma HexShift(h: string, pre: string, t: string)
    requires |h| == 4 && HexAt(h, 0)
    ensures HexAt(pre + h + t, |pre|) && HexValueAt(pre + h + t, |pre|) == HexValueAt(h, 0)
  {
    var s := pre + h + t;
    var k := |pre|;
    assert s[k] == h[0] && s[k + 1] == h[1] && s[k + 2] == h[2] && s[k + 3] == h[3];
  }

  /** The two halves of a surrogate pair fall in their ranges and recombine to the code point. */
  lemma SurrogateHalves(n: int)
    requires 0x10000 <= n < 0x110000
    ensures var v := n - 0x10000;
      0xD800 <= 0xD800 + v / 0x400 < 0xDC00 && 0xDC00 <= 0xDC00 + v % 0x400 < 0xE000
      && 0x10000 + (v / 0x400) * 0x400 + v % 0x400 == n
  {
  }

  /** An escaped body followed by the closing quote reads back as the original string. */
  lemma {:induction false} ParseCharsEscape(body: string, rest: string)
    ensures ParseChars(EscapeString(body) + "\"" + rest) == Some((body, rest))
    decreases |body|
  {
    var s := EscapeString(body) + "\"" + rest;
    if body == [] {
      assert s == "\"" + rest;
    } else {
      var e := EscapeChar(body[0]);
      var tail := EscapeString(body[1..]) + "\"" + rest;
      assert s == e + tail;
      NextCharEscape(body[0], tail);
      assert s[|e|..] == tail;
      ParseCharsEscape(body[1..], rest);
      assert [body[0]] + body[1..] == body;
    }
  }

  /**
   * A string literal with body `b` before the closing `]` is read back as the last item, when
   * `b` reads back as `item`.
   */
  lemma ParseLastItem(b: string, item: string, rest: string)
    requires ParseChars(b + "\"" + ("]" + rest)) == Some((item, "]" + rest))
    ensures ParseItems("\"" + b + "\"" + ("]" + rest)) == Some(([item], rest))
  {
    var after := "]" + rest;
    var s := "\"" + b + "\"" + after;
    assert s[0] == '"';
    SkipSpaceNone(s);
    assert s[1..] == b + "\"" + after;
    SkipSpaceNone(after);
    assert after[1..] == rest;
  }

  /** A string literal before `,` is read back ahead of the items that follow the comma. */
  lemma ParseNextItem(b: string, item: string, more: string)
    requires ParseChars(b + "\"" + ("," + more)) == Some((item, "," + more))
    ensures ParseItems("\"" + b + "\"" + ("," + more)) == Prepend(item, ParseItems(more))
  {
    var after := "," + more;
    var s := "\"" + b + "\"" + after;
    assert s[0] == '"';
    SkipSpaceNone(s);
    assert s[1..] == b + "\"" + after;
    SkipSpaceNone(after);
    assert after[1..] == more;
  }

  /** White space before an item is skipped. */
  lemma ParseItemsSpace(s: string)
    ensures ParseItems(" " + s) == ParseItems(s)
  {
    assert SkipSpace(" " + s) == SkipSpace(s) by {
      assert (" " + s)[1..] == s;
    }
  }

  /** The encoded items of a non-empty list followed by `]` read back as the list. */
  lemma {:induction false} ParseItemsEncoded(tags: seq<string>, rest: string)
    requires tags != []
    ensures ParseItems(EncodeItems(tags) + ("]" + rest)) == Some((tags, rest))
    decreases |tags|
  {
    var tail := "]" + rest;
    var b := EscapeString(tags[0]);
    if |tags| == 1 {
      assert EncodeItems(tags) == "\"" + b + "\"";
      ParseCharsEscape(tags[0], tail);
      ParseLastItem(b, tags[0], rest);
      assert [tags[0]] == tags;
    } else {
      var items := EncodeItems(tags[1..]);
      assert EncodeItems(tags) == "\"" + b + "\"" + ", " + items;
      ParseItemsEncoded(tags[1..], rest);
      ParseCharsEscape(tags[0], "," + (" " + (items + tail)));
      ParseItemsCons(b, tags[0], items, tail, tags[1..], rest);
      assert [tags[0]] + tags[1..] == tags;
    }
  }

  /** A literal, `", "` and a text whose items read back as `later` read back as the item and `later`. */
  lemma ParseItemsCons(b: string, item: string, items: string, tail: string, later: seq<string>, rest: string)
    requires ParseChars(b + "\"" + ("," + (" " + (items + tail)))) == Some((item, "," + (" " + (items + tail))))
    requires ParseItems(items + tail) == Some((later, rest))
    ensures ParseItems("\"" + b + "\"" + ", " + items + tail) == Some(([item] + later, rest))
  {
    var head := "\"" + b + "\"";
    var more := " " + (items + tail);
    Regroup(head, items, tail);
    ParseItemsSpace(items + tail);
    ParseNextItem(b, item, more);
  }

  lemma Regroup(head: string, items: string, tail: string)
    ensures head + ", " + items + tail == head + ("," + (" " + (items + tail)))
  {
  }

  /** `json.loads(json.dumps(tags)) == tags` for every list of strings. */
  lemma DecodeEncode(tags: seq<string>)
    ensures Decode(Encode(tags)) == Some(tags)
  {
    if tags == [] {
      DecodeEmpty();
    } else {
      DecodeNonEmpty(tags);
    }
  }

  lemma DecodeEmpty()
    ensures Decode(Encode([])) == Some([])
  {
    var text := Encode([]);
    assert text == "[]";
    SkipSpaceNone(text);
    assert text[1..] == "]";
    SkipSpaceNone(text[1..]);
    assert text[1..][1..] == [];
  }

  lemma DecodeNonEmpty(tags: seq<string>)
    requires tags != []
    ensures Decode(Encode(tags)) == Some(tags)
  {
    var text := Encode(tags);
    SkipSpaceNone(text);
    var body := EncodeItems(tags) + ("]" + "");
    assert text[1..] == body;
    assert body[0] == '"';
    SkipSpaceNone(body);
    ParseItemsEncoded(tags, "");
    assert ParseItems(body) == Some((tags, ""));
  }
}
