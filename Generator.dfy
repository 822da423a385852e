/**
  The `ColdOutreachGenerator` object: its lists, counters and flags, and the
  methods that update them in place. Each method is proved against the
  functions of the other modules: `processUrl` against `ProcessStep`, the
  loop of `_processUrlsInternal` against `Run`, the two filters of
  `processUrls` against `Screen`, `checkRateLimit` against `Check`.
 */
module Generator {
  import opened Wrappers
  import opened JsText
  import opened Html
  import opened StoreName
  import opened Validation
  import opened Analysis
  import opened RateLimit
  import opened Pipeline

  /** `maxUrlsPerRequest`. */
  const MaxUrlsPerRequest := 10

  /** Why `processUrls` throws before it starts the loop. */
  datatype Refusal = RateLimited(verdict: Verdict) | TooManyUrls

  /** The texts of the errors `processUrls` throws. */
  const TooSoonMessage := "Por favor, aguarde alguns segundos antes de fazer outra requisição."
  const TooManyMessage := "Limite de requisições excedido. Por favor, aguarde alguns minutos."
  const TooManyUrlsMessage := "Número máximo de URLs excedido. Máximo permitido: "

  /** The message of the error `processUrls` throws. */
  function RefusalMessage(r: Refusal): string {
    match r
    case RateLimited(v) => if v == TooSoon then TooSoonMessage else TooManyMessage
    case TooManyUrls => TooManyUrlsMessage + IntToDecimal(MaxUrlsPerRequest)
  }

  /**
    The text `processUrls` fails with tells which check failed: two refusals
    it can throw (a rate-limit refusal always carries a verdict other than
    `Admitted`) with the same message are the same refusal.
   */
  lemma RefusalMessageIdentifies(r1: Refusal, r2: Refusal)
    requires r1.RateLimited? ==> r1.verdict != Admitted
    requires r2.RateLimited? ==> r2.verdict != Admitted
    ensures RefusalMessage(r1) == RefusalMessage(r2) ==> r1 == r2
  {
    assert |TooSoonMessage| == 67 && |TooManyMessage| == 66;
    assert |RefusalMessage(TooManyUrls)| == |TooManyUrlsMessage| + |IntToDecimal(MaxUrlsPerRequest)| < 66;
  }

  /** The object `getStats()` returns. */
  datatype Stats = Stats(processed: nat, ignored: nat, total: nat)

  /** Whether `pause()` is pressed while entry `p` of a run over `[lo, hi)` is in flight. */
  predicate PausesIn(pauseAfter: Option<nat>, lo: nat, hi: nat) {
    pauseAfter.Some? && lo <= pauseAfter.value < hi
  }

  /** Where a run over `[lo, hi)` stops: after the entry during which `pause()` is pressed, or at the end. */
  function StopIndex(pauseAfter: Option<nat>, lo: nat, hi: nat): (stop: nat)
    requires lo <= hi
    ensures lo <= stop <= hi
    ensures stop < hi ==> PausesIn(pauseAfter, lo, hi)
    ensures PausesIn(pauseAfter, lo, hi) ==> stop == pauseAfter.value + 1
  {
    if PausesIn(pauseAfter, lo, hi) then pauseAfter.value + 1 else hi
  }

  /**
    Pausing and resuming handles every entry exactly once: the run up to the
    pause followed by the run the resume starts is the run without a pause.
   */
  lemma PauseThenResume(step: Stepper, urls: seq<string>, pauseAfter: Option<nat>, b: Batch)
    ensures var stop := StopIndex(pauseAfter, 0, |urls|);
      Run(step, urls, stop, StopIndex(None, stop, |urls|), Run(step, urls, 0, stop, b)) == Run(step, urls, 0, |urls|, b)
  {
    RunSplit(step, urls, 0, StopIndex(pauseAfter, 0, |urls|), |urls|, b);
  }

  class ColdOutreachGenerator {
    /** `new URL(...)`: the protocol of a parsable address, None when the constructor throws. */
    const parse: UrlParser

    var processedUrls: seq<Record>
    var ignoredUrls: seq<Ignored>
    var allUrls: seq<string>
    var currentIndex: nat
    var isProcessing: bool
    var isPaused: bool
    var userName: string
    var lastExecution: int
    var executionCount: nat
    var uniqueUrls: set<string>

    /** The loop position stays within `allUrls` and the rate counter within its bound. */
    ghost predicate Valid()
      reads this
    {
      currentIndex <= |allUrls| && executionCount <= MaxExecutions + 1
    }

    /** The rate-limit fields as a value. */
    function Limits(): Limiter
      reads this
    {
      Limiter(lastExecution, executionCount)
    }

    /** The three lists a batch updates, as a value. */
    function Lists(): Batch
      reads this
    {
      Batch(uniqueUrls, processedUrls, ignoredUrls)
    }

    constructor (parse: UrlParser)
      ensures Valid() && this.parse == parse
      ensures processedUrls == [] && ignoredUrls == [] && allUrls == [] && uniqueUrls == {}
      ensures currentIndex == 0 && !isProcessing && !isPaused && userName == []
      ensures Limits() == Initial
    {
      this.parse := parse;
      processedUrls := [];
      ignoredUrls := [];
      allUrls := [];
      currentIndex := 0;
      isProcessing := false;
      isPaused := false;
      userName := [];
      lastExecution := 0;
      executionCount := 0;
      uniqueUrls := {};
    }

    /**
      `checkRateLimit()` at time `now`: a refusal leaves the counters alone;
      an admission records the time and counts it.
     */
    method CheckRateLimit(now: int) returns (v: Verdict)
      requires Valid()
      modifies this`lastExecution, this`executionCount
      ensures Valid()
      ensures v == Check(old(Limits()), now)
      ensures Limits() == if v == Admitted then Admit(old(Limits()), now) else old(Limits())
    {
      if now - lastExecution < RequestTimeout {
        return TooSoon;
      }
      if executionCount > MaxExecutions {
        return TooMany;
      }
      lastExecution := now;
      executionCount := executionCount + 1;
      v := Admitted;
    }

    /** The callback `checkRateLimit` schedules, one minute after an admission. */
    method ExpireOne()
      requires Valid()
      modifies this`executionCount
      ensures Valid()
      ensures Limits() == Expire(old(Limits()))
    {
      executionCount := if executionCount == 0 then 0 else executionCount - 1;
    }

    /**
      `isValidUrl(s)`: the answer `ValidUrl` gives on the keys recorded so
      far, and the key recorded exactly when the answer is yes.
     */
    method IsValidUrl(s: string) returns (ok: bool)
      modifies this`uniqueUrls
      ensures ok == ValidUrl(parse, old(uniqueUrls), s)
      ensures uniqueUrls == if ok then old(uniqueUrls) + {Key(s)} else old(uniqueUrls)
    {
      var urlToTest := if StartsWith(s, "http") then s else "https://" + s;
      var protocol := parse(urlToTest);
      if protocol.None? {
        return false;
      }
      if Lower(urlToTest) in uniqueUrls {
        return false;
      }
      if protocol.value !in {"http:", "https:"} {
        return false;
      }
      if exists i | 0 <= i < |s| :: IsSuspicious(s[i]) {
        return false;
      }
      if Utf16Length(s) > MaxUrlLength {
        return false;
      }
      uniqueUrls := uniqueUrls + {Lower(urlToTest)};
      ok := true;
    }

    /**
      `processUrl(url)` with `probe` standing for `fetchWebsiteData`: what it
      records, pushes and returns is what `ProcessStep` says.
     */
    method ProcessUrl(url: string, probe: Probe) returns (out: Outcome)
      modifies this`uniqueUrls, this`processedUrls, this`ignoredUrls
      ensures var st := ProcessStep(parse, userName, old(uniqueUrls), url, probe);
        out == st.outcome && uniqueUrls == st.keys
      ensures processedUrls == old(processedUrls) + (if out.Kept? then [out.record] else [])
      ensures ignoredUrls == old(ignoredUrls) + (if out.Skipped? then [Line(out.text)] else [])
    {
      var trimmedUrl := Trim(url);
      var ok := false;
      if trimmedUrl != [] {
        ok := IsValidUrl(trimmedUrl);
      }
      if !ok {
        ignoredUrls := ignoredUrls + [Line(trimmedUrl)];
        return Skipped(trimmedUrl);
      }
      var storeName := ExtractStoreName(trimmedUrl);
      if storeName == [] {
        ignoredUrls := ignoredUrls + [Line(trimmedUrl)];
        return Skipped(trimmedUrl);
      }
      if probe.Fault? {
        return Threw(probe.message);
      }
      var result := MakeRecord(userName, trimmedUrl, storeName, Fetched(probe));
      processedUrls := processedUrls + [result];
      out := Kept(result);
    }

    /**
      The body of one turn of the loop of `_processUrlsInternal`:
      `processUrl` on the current entry, and an escaping exception caught
      and pushed with the entry.
     */
    method HandleEntry(siteData: nat -> Probe)
      requires currentIndex < |allUrls|
      modifies this`uniqueUrls, this`processedUrls, this`ignoredUrls
      ensures Lists() == Settle(old(Lists()), allUrls[currentIndex],
        ProcessStep(parse, userName, old(uniqueUrls), allUrls[currentIndex], siteData(currentIndex)))
    {
      ghost var prev := Lists();
      var url := allUrls[currentIndex];
      var out := ProcessUrl(url, siteData(currentIndex));
      if out.Threw? {
        ignoredUrls := ignoredUrls + [Failed(url, out.message)];
      }
      SettleRecords(prev, url, ProcessStep(parse, userName, prev.keys, url, siteData(currentIndex)), Lists());
    }

    /**
      One turn of the loop of `_processUrlsInternal`: the entry handled and
      the index moved on. The lists stay those of the run so far.
     */
    method Advance(siteData: nat -> Probe, ghost start: nat, ghost b0: Batch)
      requires start <= currentIndex < |allUrls|
      requires Lists() == Run(Processor(parse, userName, siteData), allUrls, start, currentIndex, b0)
      modifies this`uniqueUrls, this`processedUrls, this`ignoredUrls, this`currentIndex
      ensures currentIndex == old(currentIndex) + 1
      ensures Lists() == Run(Processor(parse, userName, siteData), allUrls, start, currentIndex, b0)
    {
      RunNext(Processor(parse, userName, siteData), allUrls, start, currentIndex, b0);
      HandleEntry(siteData);
      currentIndex := currentIndex + 1;
    }

    /** `pause()`. */
    method Pause()
      modifies this`isPaused, this`isProcessing
      ensures isPaused && !isProcessing
    {
      isPaused := true;
      isProcessing := false;
    }

    /**
      `_processUrlsInternal()`: entry `i` looked up through `siteData(i)`,
      and `pause()` pressed while entry `pauseAfter` is in flight. When the
      loop may run, it handles the entries from `currentIndex` up to the
      stop index exactly as `Run` does; otherwise nothing changes.
     */
    method ProcessUrlsInternal(siteData: nat -> Probe, pauseAfter: Option<nat>)
      requires Valid()
      modifies this`uniqueUrls, this`processedUrls, this`ignoredUrls, this`currentIndex
      modifies this`isPaused, this`isProcessing
      ensures Valid()
      ensures var running := old(isProcessing && !isPaused);
        var stop := if running then StopIndex(pauseAfter, old(currentIndex), |allUrls|) else old(currentIndex);
        && currentIndex == stop
        && Lists() == Run(Processor(parse, userName, siteData), allUrls, old(currentIndex), stop, old(Lists()))
        && (if running && PausesIn(pauseAfter, old(currentIndex), |allUrls|)
            then isPaused && !isProcessing
            else isPaused == old(isPaused) && isProcessing == old(isProcessing))
    {
      ghost var start := currentIndex;
      ghost var b0 := Lists();
      ghost var running := isProcessing && !isPaused;
      ghost var stop := if running then StopIndex(pauseAfter, start, |allUrls|) else start;
      while currentIndex < |allUrls| && isProcessing && !isPaused
        invariant start <= currentIndex <= stop
        invariant Lists() == Run(Processor(parse, userName, siteData), allUrls, start, currentIndex, b0)
        invariant !running ==> isPaused == old(isPaused) && isProcessing == old(isProcessing)
        invariant running && currentIndex < stop ==> isProcessing && !isPaused
        invariant running && currentIndex == stop && stop < |allUrls| ==> isPaused && !isProcessing
        invariant running && PausesIn(pauseAfter, start, |allUrls|) && currentIndex == stop ==> isPaused && !isProcessing
        invariant running && !PausesIn(pauseAfter, start, |allUrls|) ==> isProcessing && !isPaused
        decreases |allUrls| - currentIndex
      {
        Advance(siteData, start, b0);
        if pauseAfter == Some(currentIndex - 1) {
          Pause();
        }
      }
    }

    /** `resume()`: the loop picks up where the pause left it, and processing is off again afterwards. */
    method Resume(siteData: nat -> Probe, pauseAfter: Option<nat>)
      requires Valid()
      modifies this`uniqueUrls, this`processedUrls, this`ignoredUrls, this`currentIndex
      modifies this`isPaused, this`isProcessing
      ensures Valid()
      ensures var stop := StopIndex(pauseAfter, old(currentIndex), |allUrls|);
        && currentIndex == stop
        && Lists() == Run(Processor(parse, userName, siteData), allUrls, old(currentIndex), stop, old(Lists()))
        && isPaused == PausesIn(pauseAfter, old(currentIndex), |allUrls|)
        && !isProcessing
    {
      isPaused := false;
      isProcessing := true;
      ProcessUrlsInternal(siteData, pauseAfter);
      isProcessing := false;
    }

    /**
      The two filters of `processUrls`: each entry goes to `isValidUrl` once,
      in order, and lands on the accepted or the refused side.
     */
    method FilterUrls(urls: seq<string>) returns (valid: seq<string>, invalid: seq<string>)
      modifies this`uniqueUrls
      ensures var s := Screen(parse, old(uniqueUrls), urls);
        valid == s.valid && invalid == s.invalid && uniqueUrls == s.keys
    {
      valid, invalid := [], [];
      var i := 0;
      while i < |urls|
        invariant 0 <= i <= |urls|
        invariant var s := Screen(parse, old(uniqueUrls), urls[..i]);
          valid == s.valid && invalid == s.invalid && uniqueUrls == s.keys
      {
        ScreenNext(parse, old(uniqueUrls), urls, i);
        var ok := IsValidUrl(urls[i]);
        if ok {
          valid := valid + [urls[i]];
        } else {
          invalid := invalid + [urls[i]];
        }
        i := i + 1;
      }
      assert urls[..|urls|] == urls;
    }

    /**
      The part of `processUrls` between the size check and the loop: the two
      filters fill `allUrls` and `ignoredUrls`, and the loop state is reset.
     */
    method LoadBatch(rawUrls: seq<string>)
      modifies this`uniqueUrls, this`allUrls, this`ignoredUrls, this`processedUrls
      modifies this`currentIndex, this`isProcessing, this`isPaused
      ensures var first := Screen(parse, old(uniqueUrls), rawUrls);
        var second := Screen(parse, first.keys, rawUrls);
        && allUrls == first.valid
        && Lists() == Batch(second.keys, [], Lines(second.invalid))
        && currentIndex == 0 && isProcessing && !isPaused
    {
      var accepted, _ := FilterUrls(rawUrls);
      allUrls := accepted;
      var _, refused := FilterUrls(rawUrls);
      ignoredUrls := Lines(refused);
      processedUrls := [];
      currentIndex := 0;
      isProcessing := true;
      isPaused := false;
    }

    /**
      The part of `processUrls` that may throw: the keys are cleared and the
      rate limit checked, the user name sanitized, and the non-blank lines
      counted against the per-request maximum.
     */
    method BeginBatch(urlList: string, name: string, now: int) returns (r: Result<seq<string>, Refusal>)
      requires Valid()
      modifies this`uniqueUrls, this`lastExecution, this`executionCount, this`userName
      ensures Valid() && uniqueUrls == {}
      ensures var raw := NonBlankLines(urlList);
        var verdict := Check(old(Limits()), now);
        && (r.Failure? <==> verdict != Admitted || |raw| > MaxUrlsPerRequest)
        && (r.Success? ==> r.value == raw)
        && (verdict == Admitted && |raw| > MaxUrlsPerRequest ==> r == Failure(TooManyUrls))
        && (verdict != Admitted ==>
              r == Failure(RateLimited(verdict)) && Limits() == old(Limits()) && userName == old(userName))
        && (verdict == Admitted ==> Limits() == Admit(old(Limits()), now) && userName == Escape(name))
    {
      uniqueUrls := {};
      var verdict := CheckRateLimit(now);
      if verdict != Admitted {
        return Failure(RateLimited(verdict));
      }
      userName := Escape(name);
      var rawUrls := NonBlankLines(urlList);
      if |rawUrls| > MaxUrlsPerRequest {
        return Failure(TooManyUrls);
      }
      r := Success(rawUrls);
    }

    /**
      The part of `processUrls` after the checks: the two filters fill
      `allUrls` and `ignoredUrls`, the loop runs from the first entry, and
      processing is switched off.
     */
    method RunBatch(rawUrls: seq<string>, siteData: nat -> Probe, pauseAfter: Option<nat>)
      requires Valid()
      modifies this`uniqueUrls, this`allUrls, this`ignoredUrls, this`processedUrls
      modifies this`currentIndex, this`isProcessing, this`isPaused
      ensures Valid()
      ensures var first := Screen(parse, old(uniqueUrls), rawUrls);
        var second := Screen(parse, first.keys, rawUrls);
        var stop := StopIndex(pauseAfter, 0, |first.valid|);
        && allUrls == first.valid
        && currentIndex == stop
        && Lists() == Run(Processor(parse, userName, siteData), first.valid, 0, stop,
                          Batch(second.keys, [], Lines(second.invalid)))
        && !isProcessing && isPaused == PausesIn(pauseAfter, 0, |first.valid|)
    {
      LoadBatch(rawUrls);
      ProcessUrlsInternal(siteData, pauseAfter);
      isProcessing := false;
    }

    /**
      `processUrls(urlList, userName)` at time `now`, returning the records
      or the message of the error it throws. It clears the keys and checks
      the rate limit, throwing when refused; it sanitizes the user name, and
      throws when more than ten non-blank lines remain. Otherwise
      `allUrls` becomes the lines the first filter accepts and
      `ignoredUrls` the lines the second filter refuses, and the loop runs
      from the first entry.
     */
    method ProcessUrls(urlList: string, name: string, now: int, siteData: nat -> Probe, pauseAfter: Option<nat>)
      returns (r: Result<seq<Record>, string>)
      requires Valid()
      modifies this
      ensures Valid()
      ensures var raw := NonBlankLines(urlList);
        var verdict := Check(old(Limits()), now);
        && (r.Failure? <==> verdict != Admitted || |raw| > MaxUrlsPerRequest)
        && (verdict != Admitted ==>
              && r == Failure(RefusalMessage(RateLimited(verdict)))
              && Limits() == old(Limits()) && userName == old(userName))
        && (verdict == Admitted ==> Limits() == Admit(old(Limits()), now) && userName == Escape(name))
        && (verdict == Admitted && |raw| > MaxUrlsPerRequest ==> r == Failure(RefusalMessage(TooManyUrls)))
        && (r.Failure? ==>
              && uniqueUrls == {} && processedUrls == old(processedUrls)
              && ignoredUrls == old(ignoredUrls) && allUrls == old(allUrls) && currentIndex == old(currentIndex)
              && isProcessing == old(isProcessing) && isPaused == old(isPaused))
      ensures var raw := NonBlankLines(urlList);
        var first := Screen(parse, {}, raw);
        var second := Screen(parse, first.keys, raw);
        var stop := StopIndex(pauseAfter, 0, |first.valid|);
        r.Success? ==>
          && allUrls == first.valid
          && currentIndex == stop
          && Lists() == Run(Processor(parse, userName, siteData), first.valid, 0, stop,
                            Batch(second.keys, [], Lines(second.invalid)))
          && r.value == processedUrls
          && !isProcessing && isPaused == PausesIn(pauseAfter, 0, |first.valid|)
    {
      var begun := BeginBatch(urlList, name, now);
      if begun.Failure? {
        return Failure(RefusalMessage(begun.error));
      }
      RunBatch(begun.value, siteData, pauseAfter);
      r := Success(processedUrls);
    }

    /** `getStats()`: the sizes of the two lists and their sum. */
    function GetStats(): (s: Stats)
      reads this
      ensures s.processed == |processedUrls| && s.ignored == |ignoredUrls|
      ensures s.total == s.processed + s.ignored
    {
      Stats(|processedUrls|, |ignoredUrls|, |processedUrls| + |ignoredUrls|)
    }
  }

  /**
    After a batch, every handled entry has left exactly one trace: the
    statistics count the refused lines and the entries the loop reached.
   */
  lemma BatchStats(parse: UrlParser, userName: string, siteData: nat -> Probe, raw: seq<string>, stop: nat)
    requires stop <= |Screen(parse, {}, raw).valid|
    ensures var first := Screen(parse, {}, raw);
      var second := Screen(parse, first.keys, raw);
      var b := Run(Processor(parse, userName, siteData), first.valid, 0, stop, Batch(second.keys, [], Lines(second.invalid)));
      |b.processed| + |b.ignored| == |second.invalid| + stop
  {
  }
}
