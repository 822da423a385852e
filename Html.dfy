/**
  `sanitizeInput`: setting a detached element's `textContent` and reading back
  its `innerHTML` runs the escaping step of the HTML fragment serialisation
  algorithm (HTML Living Standard, section 13.3, "escaping a string" outside
  attribute mode): `&` becomes `&amp;`, U+00A0 becomes `&nbsp;`, `<` becomes
  `&lt;` and `>` becomes `&gt;`; every other character, `"` included, is kept.
 */
module Html {
  import opened JsText

  function EscapeChar(c: char): string {
    if c == '&' then "&amp;"
    else if c == '\U{A0}' then "&nbsp;"
    else if c == '<' then "&lt;"
    else if c == '>' then "&gt;"
    else [c]
  }

  /**
    `sanitizeInput(s)`. Escaping loses nothing, since decoding the escaped
    text gives the original back, and leaves no raw `<` or `>`.
   */
  function Escape(s: string): (r: string)
    ensures Unescape(r) == s
    ensures '<' !in r && '>' !in r
  {
    if s == [] then []
    else
      var rest := Escape(s[1..]);
      DecodeChar(s[0], rest);
      assert [s[0]] + s[1..] == s;
      EscapeChar(s[0]) + rest
  }

  /** Reading the serialised text back: the four character references decoded. */
  function Unescape(s: string): string
    decreases |s|
  {
    if s == [] then []
    else if StartsWith(s, "&amp;") then "&" + Unescape(s[5..])
    else if StartsWith(s, "&nbsp;") then "\U{A0}" + Unescape(s[6..])
    else if StartsWith(s, "&lt;") then "<" + Unescape(s[4..])
    else if StartsWith(s, "&gt;") then ">" + Unescape(s[4..])
    else [s[0]] + Unescape(s[1..])
  }

  /** The characters the character references are spelled with. */
  predicate InReference(c: char) {
    c in "&;abglmnpst"
  }

  lemma DecodeAmp(rest: string)
    ensures Unescape("&amp;" + rest) == "&" + Unescape(rest)
  {
    var e := "&amp;" + rest;
    assert e[..5] == "&amp;" && e[5..] == rest;
  }

  lemma DecodeNbsp(rest: string)
    ensures Unescape("&nbsp;" + rest) == "\U{A0}" + Unescape(rest)
  {
    var e := "&nbsp;" + rest;
    assert e[1] == 'n';
    assert e[..6] == "&nbsp;" && e[6..] == rest;
  }

  lemma DecodeLt(rest: string)
    ensures Unescape("&lt;" + rest) == "<" + Unescape(rest)
  {
    var e := "&lt;" + rest;
    assert e[..4] == "&lt;" && e[4..] == rest;
    assert e[1] == 'l';
    assert !StartsWith(e, "&amp;") && !StartsWith(e, "&nbsp;");
    assert StartsWith(e, "&lt;");
  }

  lemma DecodeGt(rest: string)
    ensures Unescape("&gt;" + rest) == ">" + Unescape(rest)
  {
    var e := "&gt;" + rest;
    assert e[..4] == "&gt;" && e[4..] == rest;
    assert e[1] == 'g';
    assert !StartsWith(e, "&amp;") && !StartsWith(e, "&nbsp;");
    assert StartsWith(e, "&gt;");
  }

  lemma DecodePlain(c: char, rest: string)
    requires c != '&'
    ensures Unescape([c] + rest) == [c] + Unescape(rest)
  {
    var e := [c] + rest;
    assert e[0] == c && e[1..] == rest;
    assert !StartsWith(e, "&amp;") && !StartsWith(e, "&nbsp;") && !StartsWith(e, "&lt;") && !StartsWith(e, "&gt;");
  }

  /** Decoding the escape of one character followed by more text gives the character back first. */
  lemma DecodeChar(c: char, rest: string)
    ensures Unescape(EscapeChar(c) + rest) == [c] + Unescape(rest)
  {
    if c == '&' {
      DecodeAmp(rest);
    } else if c == '\U{A0}' {
      DecodeNbsp(rest);
    } else if c == '<' {
      DecodeLt(rest);
    } else if c == '>' {
      DecodeGt(rest);
    } else {
      DecodePlain(c, rest);
    }
  }

  /** Sanitizing a text that starts with a given character. */
  lemma EscapeCons(c: char, rest: string)
    ensures Escape([c] + rest) == EscapeChar(c) + Escape(rest)
  {
    assert ([c] + rest)[1..] == rest;
  }

  /** A character that is not in the input and is not used to spell a reference is not in the output. */
  lemma {:induction false} EscapeAvoids(s: string, c: char)
    requires c !in s && !InReference(c)
    ensures c !in Escape(s)
  {
    if s != [] {
      EscapeAvoids(s[1..], c);
      assert c !in EscapeChar(s[0]);
    }
  }
}
