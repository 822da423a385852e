/**
  `isValidUrl`, split into its pure part: the text actually parsed, the
  deduplication key, and the checks that do not depend on earlier calls.
  The WHATWG URL parser is not modelled: `parse` stands for `new URL(...)`,
  returning None where it throws and the `protocol` property where it succeeds.
 */
module Validation {
  import opened Wrappers
  import opened JsText

  type UrlParser = string -> Option<string>

  const MaxUrlLength := 200

  /** The text handed to the URL parser: `https://` is prefixed unless it starts with `http`. */
  function UrlToTest(s: string): string {
    if StartsWith(s, "http") then s else "https://" + s
  }

  /** The parsed text always starts with `http` and ends with the text given. */
  lemma UrlToTestShape(s: string)
    ensures StartsWith(UrlToTest(s), "http") && EndsWith(UrlToTest(s), s)
  {
    if !StartsWith(s, "http") {
      assert UrlToTest(s)[..4] == "http";
    }
  }

  /**
    The key recorded in `uniqueUrls`: the parsed text, lower-cased. It is as
    long as the parsed text, each of its characters is the lowered character
    of the parsed text at the same place, so entries differing only in the
    case of ASCII letters share a key, and it holds no upper-case ASCII letter.
   */
  function Key(s: string): (k: string)
    ensures |k| == |UrlToTest(s)|
    ensures forall i :: 0 <= i < |k| ==> k[i] == LowerChar(UrlToTest(s)[i])
    ensures forall i :: 0 <= i < |k| ==> !('A' <= k[i] <= 'Z')
  {
    LowerPointwise(UrlToTest(s));
    Lower(UrlToTest(s))
  }

  /** The characters the raw text must not contain. */
  predicate IsSuspicious(c: char) {
    c == '<' || c == '>' || c == '{' || c == '}'
  }

  /**
    The checks of `isValidUrl` other than deduplication. An accepted text has
    at most 200 characters, whatever their UTF-16 length, and no angle bracket.
   */
  predicate Acceptable(parse: UrlParser, s: string): (ok: bool)
    ensures ok ==> |s| <= MaxUrlLength && '<' !in s && '>' !in s
  {
    Utf16LengthBounds(s);
    && parse(UrlToTest(s)).Some?
    && parse(UrlToTest(s)).value in {"http:", "https:"}
    && (forall i :: 0 <= i < |s| ==> !IsSuspicious(s[i]))
    && Utf16Length(s) <= MaxUrlLength
  }

  /** The answer `isValidUrl(s)` gives when `keys` is the content of `uniqueUrls`. */
  predicate ValidUrl(parse: UrlParser, keys: set<string>, s: string) {
    Acceptable(parse, s) && Key(s) !in keys
  }

  /** No two entries share a key. */
  ghost predicate DistinctKeys(urls: seq<string>) {
    forall i, j :: 0 <= i < j < |urls| ==> Key(urls[i]) != Key(urls[j])
  }

  /** The keys of a list of entries. */
  ghost function KeySet(urls: seq<string>): set<string> {
    set u | u in urls :: Key(u)
  }

  /** Once its key is recorded, the same text is refused: a second call on it returns false. */
  lemma SecondCallRefused(parse: UrlParser, keys: set<string>, s: string)
    ensures !ValidUrl(parse, keys + {Key(s)}, s)
  {
  }

  /** What refuses a text for a reason other than its key is permanent: recording more keys never admits it. */
  lemma RefusalIsMonotone(parse: UrlParser, keys: set<string>, more: set<string>, s: string)
    requires keys <= more
    requires !ValidUrl(parse, keys, s)
    ensures !ValidUrl(parse, more, s)
  {
  }
}
