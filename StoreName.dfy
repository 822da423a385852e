/**
  `extractStoreName`: the store's label, taken from an Instagram handle or
  from the first label of the host name.
 */
module StoreName {
  import opened Wrappers
  import opened JsText
  import opened Html

  const InstagramPath: string := "instagram.com/"

  /** `s.replace(/^https?:\/\//, '')`: one leading `http://` or `https://` removed. */
  function StripScheme(s: string): string {
    if StartsWith(s, "https://") then s[8..]
    else if StartsWith(s, "http://") then s[7..]
    else s
  }

  /** `s.replace(/^www\./, '')`: one leading `www.` removed. */
  function StripWww(s: string): string {
    if StartsWith(s, "www.") then s[4..] else s
  }

  /** The URL after sanitising and removing the scheme and `www.`. */
  function Cleaned(url: string): string {
    StripWww(StripScheme(Escape(url)))
  }

  /** The characters a regular-expression `.` does not match. */
  predicate IsLineTerminator(c: char) {
    c == '\n' || c == '\r' || c == '\U{2028}' || c == '\U{2029}'
  }

  /** How far `.*` can reach from position p: the first line terminator at or after p, or the end. */
  function DotRunEnd(s: string, p: nat): (e: nat)
    requires p <= |s|
    ensures p <= e <= |s|
    decreases |s| - p
  {
    if p == |s| || IsLineTerminator(s[p]) then p else DotRunEnd(s, p + 1)
  }

  /** `.*` stops exactly at the first line terminator: none before it, one at it unless at the end. */
  lemma {:induction false} DotRunEndSpec(s: string, p: nat)
    requires p <= |s|
    ensures var e := DotRunEnd(s, p);
      && (forall k :: p <= k < e ==> !IsLineTerminator(s[k]))
      && (e < |s| ==> IsLineTerminator(s[e]))
    decreases |s| - p
  {
    if p < |s| && !IsLineTerminator(s[p]) {
      DotRunEndSpec(s, p + 1);
    }
  }

  /** The last position in [lo, hi] where `instagram.com/` starts, if any. */
  function LastOccurrence(s: string, lo: nat, hi: nat): (r: Option<nat>)
    ensures r.Some? ==> lo <= r.value <= hi && OccursAt(s, InstagramPath, r.value)
    decreases hi
  {
    if hi < lo then None
    else if OccursAt(s, InstagramPath, hi) then Some(hi)
    else if hi == lo then None
    else LastOccurrence(s, lo, hi - 1)
  }

  /** The position found is the last one in range, and nothing is found only when no position matches. */
  lemma {:induction false} LastOccurrenceSpec(s: string, lo: nat, hi: nat)
    ensures var r := LastOccurrence(s, lo, hi);
      && (r.Some? ==> forall q: nat :: r.value < q <= hi ==> !OccursAt(s, InstagramPath, q))
      && (r.None? ==> forall q: nat :: lo <= q <= hi ==> !OccursAt(s, InstagramPath, q))
    decreases hi
  {
    if lo < hi && !OccursAt(s, InstagramPath, hi) {
      LastOccurrenceSpec(s, lo, hi - 1);
    }
  }

  /**
    `s.replace(/.*instagram\.com\//, '')` with the search begun at position p:
    the first start position with a match wins, and from it the greedy `.*`
    runs to the last `instagram.com/` that no line terminator separates from it.
   */
  function ReplaceFrom(s: string, p: nat): string
    requires p <= |s|
    decreases |s| - p
  {
    match LastOccurrence(s, p, DotRunEnd(s, p))
    case Some(q) => s[..p] + s[q + |InstagramPath|..]
    case None => if p == |s| then s else ReplaceFrom(s, p + 1)
  }

  function StripThroughInstagram(s: string): string {
    ReplaceFrom(s, 0)
  }

  /**
    `extractStoreName(url)`; the empty result is the falsy name the caller
    rejects. A store name never holds `/` and, being sanitized, never a raw
    `<` or `>`; one taken from the host name never holds `.` either.
   */
  function ExtractStoreName(url: string): (name: string)
    ensures '/' !in name
    ensures '<' !in name && '>' !in name
    ensures !Contains(Cleaned(url), InstagramPath) ==> '.' !in name
  {
    var cleanUrl := Cleaned(url);
    if Contains(cleanUrl, InstagramPath) then
      var handle := Split(StripThroughInstagram(cleanUrl), '/')[0];
      SplitPiecesAvoid(StripThroughInstagram(cleanUrl), '/');
      EscapeAvoids(handle, '/');
      Escape(handle)
    else
      var host := Split(Split(cleanUrl, '/')[0], '.')[0];
      SplitPiecesAvoid(cleanUrl, '/');
      SplitHead(Split(cleanUrl, '/')[0], '.');
      SplitPiecesAvoid(Split(cleanUrl, '/')[0], '.');
      EscapeAvoids(host, '/');
      EscapeAvoids(host, '.');
      Escape(host)
  }

  /**
    Without `instagram.com/`, the store name is the sanitized start of the
    cleaned URL up to, not including, its first `/` or `.`, or all of it when
    it has neither.
   */
  lemma HostNameIsFirstLabel(url: string)
    requires !Contains(Cleaned(url), InstagramPath)
    ensures var c := Cleaned(url);
      exists n :: 0 <= n <= |c| && ExtractStoreName(url) == Escape(c[..n])
        && '/' !in c[..n] && '.' !in c[..n] && (n < |c| ==> c[n] == '/' || c[n] == '.')
  {
    var c := Cleaned(url);
    var h1 := Split(c, '/')[0];
    SplitHead(c, '/');
    var h2 := Split(h1, '.')[0];
    SplitHead(h1, '.');
    var n := |h2|;
    assert c[..n] == h2;
    assert ExtractStoreName(url) == Escape(h2);
    if n < |c| {
      if n < |h1| {
        assert c[n] == h1[n] == '.';
      } else {
        assert c[n] == '/';
      }
    }
  }

  /**
    On a single line of text, the Instagram handle is what follows the LAST
    `instagram.com/`, cut at the first `/`.
   */
  lemma InstagramHandleFollowsLastOccurrence(url: string, q: nat)
    requires OccursAt(Cleaned(url), InstagramPath, q)
    requires forall q': nat :: q < q' ==> !OccursAt(Cleaned(url), InstagramPath, q')
    requires forall k :: 0 <= k < |Cleaned(url)| ==> !IsLineTerminator(Cleaned(url)[k])
    ensures ExtractStoreName(url) == Escape(Split(Cleaned(url)[q + |InstagramPath|..], '/')[0])
  {
    var s := Cleaned(url);
    assert Contains(s, InstagramPath);
    var e := DotRunEnd(s, 0);
    DotRunEndSpec(s, 0);
    assert e == |s|;
    var found := LastOccurrence(s, 0, e);
    LastOccurrenceSpec(s, 0, e);
    assert found == Some(q);
    assert StripThroughInstagram(s) == s[q + |InstagramPath|..];
  }
}
