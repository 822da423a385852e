/**
  What a batch does to the generator's lists, as functions of the inputs:
  `processUrl` on one entry, the two `filter` passes of `processUrls` over
  the raw lines, and the loop of `_processUrlsInternal` over a range of
  `allUrls`. The methods of `ColdOutreachGenerator` are proved against these.
 */
module Pipeline {
  import opened Wrappers
  import opened JsText
  import opened Html
  import opened StoreName
  import opened Validation
  import opened Analysis

  /**
    What looking up a site yields: `null`, the site's signals, or an exception
    escaping `processUrl` with its message.
   */
  datatype Probe = NoData | Data(signal: SiteSignal) | Fault(message: string)

  /** The object `processUrl` pushes onto `processedUrls`. */
  datatype Record = Record(
    url: string,
    contato: string,
    conquista: string,
    oportunidade: string,
    mensagem: string,
    websiteData: Option<SiteSignal>,
    whatsapp: string,
    blogUrl: string)

  /** An entry of `ignoredUrls`: a text pushed as it is, or the `{ url, error }` object of a failed entry. */
  datatype Ignored = Line(text: string) | Failed(url: string, message: string)

  /** What stands in for a missing WhatsApp number or blog address. */
  const NotFound := "Não encontrado"

  /** `v || 'Não encontrado'` on an optional string: the value unless it is missing or empty. */
  function OrNotFound(v: Option<string>): (r: string)
    ensures r != []
    ensures r == NotFound || (v.Some? && r == v.value)
    ensures v.Some? && v.value != [] ==> r == v.value
  {
    if v.Some? && v.value != [] then v.value else NotFound
  }

  /** The site data a probe hands to `analyzeStore`. */
  function Fetched(p: Probe): Option<SiteSignal>
    requires !p.Fault?
  {
    if p.Data? then Some(p.signal) else None
  }

  /**
    The record `processUrl` builds for a trimmed entry `url` whose store name
    is `storeName`: it keeps the entry and the site data, names the seed's
    contact, extends the seed's opportunity, and keeps a present, non-empty
    WhatsApp number or blog address, writing `NotFound` for any other.
   */
  function MakeRecord(userName: string, url: string, storeName: string, data: Option<SiteSignal>): (r: Record)
    ensures r.url == url && r.websiteData == data
    ensures r.contato == Seed(storeName).contato
    ensures StartsWith(r.oportunidade, Seed(storeName).oportunidade)
    ensures data.Some? && data.value.whatsapp.Some? && data.value.whatsapp.value != [] ==> r.whatsapp == data.value.whatsapp.value
    ensures !(data.Some? && data.value.whatsapp.Some? && data.value.whatsapp.value != []) ==> r.whatsapp == NotFound
    ensures data.Some? && data.value.blogUrl.Some? && data.value.blogUrl.value != [] ==> r.blogUrl == data.value.blogUrl.value
    ensures !(data.Some? && data.value.blogUrl.Some? && data.value.blogUrl.value != []) ==> r.blogUrl == NotFound
  {
    var a := AnalyzeStore(storeName, data);
    AnalyzeStoreExtendsSeed(storeName, data);
    Record(url, a.contato, a.conquista, a.oportunidade, GenerateMessage(userName, storeName, a), data,
      OrNotFound(if data.Some? then data.value.whatsapp else None),
      OrNotFound(if data.Some? then data.value.blogUrl else None))
  }

  /** How `processUrl` ends: a record pushed, a text pushed onto `ignoredUrls`, or an exception. */
  datatype Outcome = Kept(record: Record) | Skipped(text: string) | Threw(message: string)

  /** The keys recorded after `processUrl`, and how it ended. */
  datatype Step = Step(keys: set<string>, outcome: Outcome)

  /** Whether `processUrl` gets past its validity check: a non-empty trim that `isValidUrl` accepts. */
  predicate Admitted(parse: UrlParser, keys: set<string>, url: string) {
    Trim(url) != [] && ValidUrl(parse, keys, Trim(url))
  }

  /**
    `processUrl(url)` with `keys` in `uniqueUrls` and `probe` standing for the
    site lookup. The key of the trimmed entry is recorded exactly when
    `isValidUrl` accepts it. The trimmed entry is pushed onto `ignoredUrls`
    exactly when it is empty, refused, or gives an empty store name. An
    exception escapes only from the lookup of an admitted entry with a store
    name. A record is built only for an acceptable entry whose key was new:
    the record of its trimmed address, its store name and the site data.
   */
  function ProcessStep(parse: UrlParser, userName: string, keys: set<string>, url: string, probe: Probe): (st: Step)
    ensures st.keys == if Admitted(parse, keys, url) then keys + {Key(Trim(url))} else keys
    ensures st.outcome.Skipped? <==> !Admitted(parse, keys, url) || ExtractStoreName(Trim(url)) == []
    ensures st.outcome.Skipped? ==> st.outcome.text == Trim(url)
    ensures st.outcome.Threw? <==> Admitted(parse, keys, url) && ExtractStoreName(Trim(url)) != [] && probe.Fault?
    ensures st.outcome.Threw? ==> st.outcome.message == probe.message
    ensures st.outcome.Kept? ==>
      && Acceptable(parse, Trim(url)) && Key(Trim(url)) !in keys
      && st.outcome.record.url == Trim(url)
      && !probe.Fault?
      && st.outcome.record == MakeRecord(userName, Trim(url), ExtractStoreName(Trim(url)), Fetched(probe))
  {
    var t := Trim(url);
    if t == [] || !ValidUrl(parse, keys, t) then Step(keys, Skipped(t))
    else
      var keys' := keys + {Key(t)};
      var storeName := ExtractStoreName(t);
      if storeName == [] then Step(keys', Skipped(t))
      else if probe.Fault? then Step(keys', Threw(probe.message))
      else Step(keys', Kept(MakeRecord(userName, t, storeName, Fetched(probe))))
  }

  /** The three lists a batch updates. */
  datatype Batch = Batch(keys: set<string>, processed: seq<Record>, ignored: seq<Ignored>)

  /**
    One turn of the loop of `_processUrlsInternal` on entry `url`: the step's
    record or trimmed text is pushed, and an exception is caught and pushed
    with the entry as it stood in `allUrls`.
   */
  function Settle(b: Batch, url: string, st: Step): (r: Batch)
    ensures r.keys == st.keys
    ensures |r.processed| + |r.ignored| == |b.processed| + |b.ignored| + 1
  {
    match st.outcome
    case Kept(record) => Batch(st.keys, b.processed + [record], b.ignored)
    case Skipped(text) => Batch(st.keys, b.processed, b.ignored + [Line(text)])
    case Threw(message) => Batch(st.keys, b.processed, b.ignored + [Failed(url, message)])
  }

  /** The lists after a turn are those `Settle` gives when each list grew as the step's outcome says. */
  lemma SettleRecords(b: Batch, url: string, st: Step, r: Batch)
    requires r.keys == st.keys
    requires r.processed == b.processed + (if st.outcome.Kept? then [st.outcome.record] else [])
    requires r.ignored == b.ignored + match st.outcome
      case Kept(_) => []
      case Skipped(text) => [Line(text)]
      case Threw(message) => [Failed(url, message)]
    ensures r == Settle(b, url, st)
  {
  }

  /** What one turn of the loop does with an entry, given the recorded keys and the entry's position. */
  type Stepper = (set<string>, string, nat) -> Step

  /** `processUrl` as the loop calls it: entry `i` looked up through `siteData(i)`. */
  function Processor(parse: UrlParser, userName: string, siteData: nat -> Probe): Stepper {
    (keys: set<string>, url: string, i: nat) => ProcessStep(parse, userName, keys, url, siteData(i))
  }

  /**
    The loop of `_processUrlsInternal` run over the entries `lo` up to `hi`
    of `urls`. Every entry handled leaves exactly one trace: one element in
    all is added to the two lists per entry.
   */
  function Run(step: Stepper, urls: seq<string>, lo: nat, hi: nat, b: Batch): (r: Batch)
    requires lo <= hi <= |urls|
    ensures |r.processed| + |r.ignored| == |b.processed| + |b.ignored| + (hi - lo)
    decreases hi
  {
    if hi == lo then b
    else
      var prev := Run(step, urls, lo, hi - 1, b);
      Settle(prev, urls[hi - 1], step(prev.keys, urls[hi - 1], hi - 1))
  }

  /** A run one entry longer is the shorter run followed by one turn on that entry. */
  lemma RunNext(step: Stepper, urls: seq<string>, lo: nat, hi: nat, b: Batch)
    requires lo <= hi < |urls|
    ensures var prev := Run(step, urls, lo, hi, b);
      Run(step, urls, lo, hi + 1, b) == Settle(prev, urls[hi], step(prev.keys, urls[hi], hi))
  {
  }

  /**
    Stopping and resuming loses and repeats nothing: running up to `mid` and
    then from `mid` is the same as running straight through.
   */
  lemma {:induction false} RunSplit(step: Stepper, urls: seq<string>, lo: nat, mid: nat, hi: nat, b: Batch)
    requires lo <= mid <= hi <= |urls|
    ensures Run(step, urls, lo, hi, b) == Run(step, urls, mid, hi, Run(step, urls, lo, mid, b))
    decreases hi
  {
    if hi > mid {
      RunSplit(step, urls, lo, mid, hi - 1, b);
    }
  }

  /** The lists only grow: what was processed or ignored before a run stays, in place. */
  lemma {:induction false} RunExtends(step: Stepper, urls: seq<string>, lo: nat, hi: nat, b: Batch)
    requires lo <= hi <= |urls|
    ensures var r := Run(step, urls, lo, hi, b);
      b.processed <= r.processed && b.ignored <= r.ignored
    decreases hi
  {
    if hi > lo {
      RunExtends(step, urls, lo, hi - 1, b);
    }
  }

  /** `processUrl` never forgets a recorded key. */
  lemma ProcessorKeepsKeys(parse: UrlParser, userName: string, siteData: nat -> Probe, keys: set<string>, url: string, i: nat)
    ensures keys <= Processor(parse, userName, siteData)(keys, url, i).keys
  {
  }

  /** Recorded keys are never forgotten by a run of `processUrl`. */
  lemma {:induction false} RunKeepsKeys(parse: UrlParser, userName: string, siteData: nat -> Probe,
                                        urls: seq<string>, lo: nat, hi: nat, b: Batch)
    requires lo <= hi <= |urls|
    ensures b.keys <= Run(Processor(parse, userName, siteData), urls, lo, hi, b).keys
    decreases hi
  {
    if hi > lo {
      RunKeepsKeys(parse, userName, siteData, urls, lo, hi - 1, b);
      var prev := Run(Processor(parse, userName, siteData), urls, lo, hi - 1, b);
      ProcessorKeepsKeys(parse, userName, siteData, prev.keys, urls[hi - 1], hi - 1);
    }
  }

  /** The screening of a list by successive `isValidUrl` calls: the accepted and refused entries in order. */
  datatype Screening = Screening(valid: seq<string>, invalid: seq<string>, keys: set<string>)

  /**
    `urls.filter(url => this.isValidUrl(url))` and its complement, starting
    from the keys `keys`: each call records the key of an accepted entry.
   */
  function Screen(parse: UrlParser, keys: set<string>, urls: seq<string>): (s: Screening)
    ensures |s.valid| + |s.invalid| == |urls|
    decreases |urls|
  {
    if urls == [] then Screening([], [], keys)
    else
      var prev := Screen(parse, keys, urls[..|urls| - 1]);
      var u := urls[|urls| - 1];
      if ValidUrl(parse, prev.keys, u) then Screening(prev.valid + [u], prev.invalid, prev.keys + {Key(u)})
      else Screening(prev.valid, prev.invalid + [u], prev.keys)
  }

  /** Screening one entry further screens the shorter list and then that entry. */
  lemma ScreenNext(parse: UrlParser, keys: set<string>, urls: seq<string>, i: nat)
    requires i < |urls|
    ensures var prev := Screen(parse, keys, urls[..i]);
      Screen(parse, keys, urls[..i + 1])
      == if ValidUrl(parse, prev.keys, urls[i]) then Screening(prev.valid + [urls[i]], prev.invalid, prev.keys + {Key(urls[i])})
         else Screening(prev.valid, prev.invalid + [urls[i]], prev.keys)
  {
    assert urls[..i + 1][..i] == urls[..i];
  }

  /**
    `urls` is `a` and `b` merged: every entry of `urls` comes from one of the
    two, and each of them keeps its own order.
   */
  ghost predicate Interleaves(a: seq<string>, b: seq<string>, urls: seq<string>)
    decreases |urls|
  {
    if urls == [] then a == [] && b == []
    else
      var u := urls[|urls| - 1];
      || (a != [] && a[|a| - 1] == u && Interleaves(a[..|a| - 1], b, urls[..|urls| - 1]))
      || (b != [] && b[|b| - 1] == u && Interleaves(a, b[..|b| - 1], urls[..|urls| - 1]))
  }

  /**
    The screening splits the list without losing, repeating or reordering
    entries: the accepted and the refused entries, merged back in order, are
    the list.
   */
  lemma {:induction false} ScreenPartition(parse: UrlParser, keys: set<string>, urls: seq<string>)
    ensures var s := Screen(parse, keys, urls);
      && Interleaves(s.valid, s.invalid, urls)
      && multiset(s.valid) + multiset(s.invalid) == multiset(urls)
    decreases |urls|
  {
    var s := Screen(parse, keys, urls);
    assert Interleaves(s.valid, s.invalid, urls) by {
      if urls != [] {
        var init := urls[..|urls| - 1];
        var u := urls[|urls| - 1];
        ScreenPartition(parse, keys, init);
        var prev := Screen(parse, keys, init);
        if ValidUrl(parse, prev.keys, u) {
          assert (prev.valid + [u])[..|prev.valid|] == prev.valid;
        } else {
          assert (prev.invalid + [u])[..|prev.invalid|] == prev.invalid;
        }
      }
    }
    InterleavesKeepsEntries(s.valid, s.invalid, urls);
  }

  /** Merging loses and invents no entry. */
  lemma {:induction false} InterleavesKeepsEntries(a: seq<string>, b: seq<string>, urls: seq<string>)
    requires Interleaves(a, b, urls)
    ensures multiset(a) + multiset(b) == multiset(urls)
    decreases |urls|
  {
    if urls != [] {
      var u := urls[|urls| - 1];
      var init := urls[..|urls| - 1];
      assert urls == init + [u];
      if a != [] && a[|a| - 1] == u && Interleaves(a[..|a| - 1], b, init) {
        var front := a[..|a| - 1];
        InterleavesKeepsEntries(front, b, init);
        assert a == front + [u];
        assert multiset(a) == multiset(front) + multiset{u};
      } else {
        var front := b[..|b| - 1];
        InterleavesKeepsEntries(a, front, init);
        assert b == front + [u];
        assert multiset(b) == multiset(front) + multiset{u};
      }
      assert multiset(urls) == multiset(init) + multiset{u};
    }
  }

  /** The keys recorded by the screening are those of the entries it accepted. */
  lemma {:induction false} ScreenKeys(parse: UrlParser, keys: set<string>, urls: seq<string>)
    ensures var s := Screen(parse, keys, urls);
      s.keys == keys + KeySet(s.valid)
    decreases |urls|
  {
    if urls != [] {
      var init := urls[..|urls| - 1];
      var u := urls[|urls| - 1];
      ScreenKeys(parse, keys, init);
      var prev := Screen(parse, keys, init);
      if ValidUrl(parse, prev.keys, u) {
        assert KeySet(prev.valid + [u]) == KeySet(prev.valid) + {Key(u)};
      }
    }
  }

  /** The accepted entries are acceptable, with keys that were new and are pairwise different. */
  lemma {:induction false} ScreenValid(parse: UrlParser, keys: set<string>, urls: seq<string>)
    ensures var s := Screen(parse, keys, urls);
      && DistinctKeys(s.valid)
      && (forall i :: 0 <= i < |s.valid| ==> Acceptable(parse, s.valid[i]) && Key(s.valid[i]) !in keys)
    decreases |urls|
  {
    if urls != [] {
      var init := urls[..|urls| - 1];
      var u := urls[|urls| - 1];
      ScreenValid(parse, keys, init);
      ScreenKeys(parse, keys, init);
      var prev := Screen(parse, keys, init);
      if ValidUrl(parse, prev.keys, u) {
        var v := prev.valid + [u];
        forall i | 0 <= i < |prev.valid| ensures Key(v[i]) != Key(u) {
          assert v[i] == prev.valid[i] && v[i] in prev.valid;
        }
      }
    }
  }

  /** After the screening, the key of every acceptable entry is recorded. */
  lemma {:induction false} ScreenCovers(parse: UrlParser, keys: set<string>, urls: seq<string>)
    ensures var s := Screen(parse, keys, urls);
      forall u :: u in urls && Acceptable(parse, u) ==> Key(u) in s.keys
    decreases |urls|
  {
    if urls != [] {
      var init := urls[..|urls| - 1];
      ScreenCovers(parse, keys, init);
      assert urls == init + [urls[|urls| - 1]];
    }
  }

  /**
    The screening keeps the first acceptable occurrence of each new key:
    entry i is accepted exactly when it is acceptable, its key was not
    recorded at the start, and no acceptable entry before it has that key.
   */
  lemma ScreenKeepsFirst(parse: UrlParser, keys: set<string>, urls: seq<string>, i: nat)
    requires i < |urls|
    ensures ValidUrl(parse, Screen(parse, keys, urls[..i]).keys, urls[i])
      <==> && Acceptable(parse, urls[i]) && Key(urls[i]) !in keys
           && forall j :: 0 <= j < i ==> !(Acceptable(parse, urls[j]) && Key(urls[j]) == Key(urls[i]))
  {
    ScreenAdmits(parse, keys, urls[..i], urls[i]);
    assert forall j :: 0 <= j < i ==> urls[..i][j] == urls[j];
  }

  /** Entry u is accepted after the list p exactly when it is acceptable, its key is new, and no acceptable entry of p has that key. */
  lemma ScreenAdmits(parse: UrlParser, keys: set<string>, p: seq<string>, u: string)
    ensures ValidUrl(parse, Screen(parse, keys, p).keys, u)
      <==> && Acceptable(parse, u) && Key(u) !in keys
           && forall j :: 0 <= j < |p| ==> !(Acceptable(parse, p[j]) && Key(p[j]) == Key(u))
  {
    var s := Screen(parse, keys, p);
    ScreenKeys(parse, keys, p);
    assert ValidUrl(parse, s.keys, u) == (Acceptable(parse, u) && Key(u) !in s.keys);
    if Acceptable(parse, u) && Key(u) !in keys {
      if exists j :: 0 <= j < |p| && Acceptable(parse, p[j]) && Key(p[j]) == Key(u) {
        var j :| 0 <= j < |p| && Acceptable(parse, p[j]) && Key(p[j]) == Key(u);
        ScreenCovers(parse, keys, p);
        assert p[j] in p;
      } else if Key(u) in KeySet(s.valid) {
        AcceptedKeysComeEarlier(parse, keys, p, Key(u));
      }
    }
  }

  /** A key the screening accepted belongs to an acceptable entry of the list. */
  lemma AcceptedKeysComeEarlier(parse: UrlParser, keys: set<string>, p: seq<string>, k: string)
    requires k in KeySet(Screen(parse, keys, p).valid)
    ensures exists j :: 0 <= j < |p| && Acceptable(parse, p[j]) && Key(p[j]) == k
  {
    var s := Screen(parse, keys, p);
    var v :| v in s.valid && Key(v) == k;
    ScreenValid(parse, keys, p);
    var m :| 0 <= m < |s.valid| && s.valid[m] == v;
    assert Acceptable(parse, v);
    ScreenPartition(parse, keys, p);
    assert v in multiset(s.valid);
    assert v in multiset(p);
    var j :| 0 <= j < |p| && p[j] == v;
  }

  /**
    Screening again with keys that already cover every acceptable entry
    refuses every entry and records nothing.
   */
  lemma {:induction false} ScreenRefusesSeen(parse: UrlParser, keys: set<string>, urls: seq<string>)
    requires forall u :: u in urls && Acceptable(parse, u) ==> Key(u) in keys
    ensures Screen(parse, keys, urls) == Screening([], urls, keys)
    decreases |urls|
  {
    if urls != [] {
      ScreenRefusesSeen(parse, keys, urls[..|urls| - 1]);
      assert urls[..|urls| - 1] + [urls[|urls| - 1]] == urls;
    }
  }

  /**
    The second filter of `processUrls` runs after the first has recorded the
    keys of the entries it kept, so it refuses every raw line: `ignoredUrls`
    starts out as all the raw lines, the kept ones included.
   */
  lemma SecondPassRefusesAll(parse: UrlParser, raw: seq<string>)
    ensures var first := Screen(parse, {}, raw);
      Screen(parse, first.keys, raw) == Screening([], raw, first.keys)
  {
    ScreenCovers(parse, {}, raw);
    ScreenRefusesSeen(parse, Screen(parse, {}, raw).keys, raw);
  }

  /** The texts pushed as they are onto `ignoredUrls`. */
  function Lines(texts: seq<string>): seq<Ignored> {
    seq(|texts|, i requires 0 <= i < |texts| => Line(texts[i]))
  }

  /** `urlList.split('\n').filter(url => url.trim())`. */
  function NonBlankLines(text: string): seq<string> {
    KeepNonBlank(Split(text, '\n'))
  }

  /** The entries whose trim is not empty, in order. */
  function KeepNonBlank(lines: seq<string>): seq<string> {
    if lines == [] then []
    else if Trim(lines[0]) != [] then [lines[0]] + KeepNonBlank(lines[1..])
    else KeepNonBlank(lines[1..])
  }

  /**
    The filter keeps lines in order, each occurrence on its own: filtering
    two lists one after the other is filtering each, and a single line is
    kept exactly when its trim is not empty.
   */
  lemma {:induction false} KeepNonBlankInOrder(a: seq<string>, b: seq<string>)
    ensures KeepNonBlank(a + b) == KeepNonBlank(a) + KeepNonBlank(b)
    ensures |a| == 1 ==> KeepNonBlank(a) == if Trim(a[0]) != [] then a else []
  {
    if a != [] {
      KeepNonBlankInOrder(a[1..], b);
      assert (a + b)[0] == a[0];
      assert (a + b)[1..] == a[1..] + b;
      if |a| == 1 {
        assert a[1..] == [];
      }
    } else {
      assert a + b == b;
    }
  }

  /** The filter keeps exactly the entries whose trim is not empty, and no more of them than there are. */
  lemma {:induction false} KeepNonBlankExactly(lines: seq<string>)
    ensures var r := KeepNonBlank(lines);
      && |r| <= |lines|
      && (forall i :: 0 <= i < |r| ==> Trim(r[i]) != [] && r[i] in lines)
      && (forall u :: u in lines && Trim(u) != [] ==> u in r)
  {
    if lines != [] {
      KeepNonBlankExactly(lines[1..]);
      var rest := KeepNonBlank(lines[1..]);
      forall u | u in lines && Trim(u) != [] ensures u in KeepNonBlank(lines) {
        if u != lines[0] {
          assert u in lines[1..];
        }
      }
    }
  }

  /** The lines of the list are non-blank and hold no line feed. */
  lemma NonBlankLinesShape(text: string)
    ensures var r := NonBlankLines(text);
      forall i :: 0 <= i < |r| ==> Trim(r[i]) != [] && '\n' !in r[i]
  {
    var parts := Split(text, '\n');
    SplitPiecesAvoid(text, '\n');
    KeepNonBlankExactly(parts);
    var r := NonBlankLines(text);
    forall i | 0 <= i < |r| ensures '\n' !in r[i] {
      var k :| 0 <= k < |parts| && parts[k] == r[i];
    }
  }

  /** An entry that is its own trim and whose key is already recorded is pushed onto `ignoredUrls` unchanged. */
  lemma StepOnSeen(parse: UrlParser, userName: string, keys: set<string>, url: string, probe: Probe)
    requires Trim(url) == url && Key(url) in keys
    ensures ProcessStep(parse, userName, keys, url, probe) == Step(keys, Skipped(url))
  {
  }

  /** A run whose every turn skips its entry leaves the keys and records alone and ignores each entry as it stands. */
  lemma {:induction false} RunOverSkipped(step: Stepper, urls: seq<string>, lo: nat, hi: nat, b: Batch)
    requires lo <= hi <= |urls|
    requires forall i :: lo <= i < hi ==> step(b.keys, urls[i], i) == Step(b.keys, Skipped(urls[i]))
    ensures Run(step, urls, lo, hi, b) == Batch(b.keys, b.processed, b.ignored + Lines(urls[lo..hi]))
    decreases hi
  {
    if hi > lo {
      RunOverSkipped(step, urls, lo, hi - 1, b);
      assert Lines(urls[lo..hi]) == Lines(urls[lo..hi - 1]) + [Line(urls[hi - 1])];
    } else {
      assert Lines(urls[lo..hi]) == [];
    }
  }

  /** A run over entries that are their own trims and whose keys are recorded produces no record. */
  lemma RunOverSeen(parse: UrlParser, userName: string, siteData: nat -> Probe,
                    urls: seq<string>, lo: nat, hi: nat, b: Batch)
    requires lo <= hi <= |urls|
    requires forall i :: lo <= i < hi ==> Trim(urls[i]) == urls[i] && Key(urls[i]) in b.keys
    ensures Run(Processor(parse, userName, siteData), urls, lo, hi, b)
         == Batch(b.keys, b.processed, b.ignored + Lines(urls[lo..hi]))
  {
    var step := Processor(parse, userName, siteData);
    forall i | lo <= i < hi
      ensures step(b.keys, urls[i], i) == Step(b.keys, Skipped(urls[i]))
    {
      StepOnSeen(parse, userName, b.keys, urls[i], siteData(i));
    }
    RunOverSkipped(step, urls, lo, hi, b);
  }

  /** An entry of one side of a partition is an entry of the whole list. */
  lemma FromPartition(valid: seq<string>, invalid: seq<string>, urls: seq<string>, u: string)
    requires multiset(valid) + multiset(invalid) == multiset(urls)
    requires u in valid
    ensures u in urls
  {
    assert u in multiset(valid);
    assert u in multiset(urls);
  }

  /** The entries the first filter keeps are raw lines, so without padding they are their own trims, and their keys are recorded. */
  lemma KeptAreSeen(parse: UrlParser, raw: seq<string>)
    requires forall u :: u in raw ==> Trim(u) == u
    ensures var first := Screen(parse, {}, raw);
      forall i :: 0 <= i < |first.valid| ==> Trim(first.valid[i]) == first.valid[i] && Key(first.valid[i]) in first.keys
  {
    var first := Screen(parse, {}, raw);
    ScreenPartition(parse, {}, raw);
    ScreenKeys(parse, {}, raw);
    var valid, invalid, keys := first.valid, first.invalid, first.keys;
    forall i | 0 <= i < |valid|
      ensures Trim(valid[i]) == valid[i] && Key(valid[i]) in keys
    {
      FromPartition(valid, invalid, raw, valid[i]);
      assert Key(valid[i]) in KeySet(valid);
    }
  }

  /**
    When no raw line has white space at either end, a batch produces no
    record at all: the first filter records the key of every entry it
    keeps, the second filter pushes every raw line onto `ignoredUrls`, and
    the loop then refuses each kept entry as a duplicate and pushes it again.
   */
  lemma BatchWithoutPaddingIgnoresAll(parse: UrlParser, userName: string, raw: seq<string>, siteData: nat -> Probe, stop: nat)
    requires forall u :: u in raw ==> Trim(u) == u
    requires stop <= |Screen(parse, {}, raw).valid|
    ensures var first := Screen(parse, {}, raw);
      var second := Screen(parse, first.keys, raw);
      && second.invalid == raw
      && Run(Processor(parse, userName, siteData), first.valid, 0, stop, Batch(second.keys, [], Lines(second.invalid)))
         == Batch(first.keys, [], Lines(raw) + Lines(first.valid[..stop]))
  {
    var first := Screen(parse, {}, raw);
    SecondPassRefusesAll(parse, raw);
    KeptAreSeen(parse, raw);
    RunOverSeen(parse, userName, siteData, first.valid, 0, stop, Batch(first.keys, [], Lines(raw)));
    assert first.valid[0..stop] == first.valid[..stop];
  }
}
