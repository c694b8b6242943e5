/**
 * `process_data` (pump_fun_scraper.py:189-274) and the receive loop that
 * feeds it (:61-64). The collaborators are the fields of a World; a Step
 * records the row appended to the log, the outcome the function reports,
 * and the external requests it makes, in order.
 */
module Pipeline {
  import opened Wrappers
  import opened Config
  import opened Record
  import opened Filter
  import opened TwitterHandle
  import opened Enrichment
  import opened CsvLog

  /** The answers of the collaborators. */
  datatype World = World(
    // the "twitter" field of the metadata document at a URI (None: failed or absent)
    metadataTwitter: Cell -> Option<string>,
    // the path component of a URL
    urlPath: string -> string,
    // the follower lookup for a handle (None: failed; Some(None): no "followers_count")
    followers: string -> Option<Option<int>>,
    // the score of the risk summary for a mint (None: failed or empty)
    riskScore: Cell -> Option<real>)

  /** An external request made while processing one event. */
  datatype Call = FetchMetadata(uri: Cell) | LookupFollowers(handle: string) | FetchRiskSummary(mint: Cell)

  /** What `process_data` does with one event. */
  datatype Outcome =
    | Dropped       // Signature is "N/A": nothing appended, nothing evaluated
    | Faulted       // appended; the threshold comparison raised TypeError, caught at :273
    | Routine       // appended; not of interest
    | Highlighted(influencers: InfluencerReport, safety: Option<SafetyVerdict>)

  datatype Step = Step(logged: Option<Row>, outcome: Outcome, calls: seq<Call>)

  /** The metadata URI as `get_twitter_url` receives it at :210. */
  function MetadataUri(ev: RawEvent): Cell {
    Get(ev, "uri", Text(NotAvailable))
  }

  /** The Twitter URL of the row. */
  function TwitterOf(ev: RawEvent, w: World): Option<string> {
    TwitterUrl(MetadataUri(ev), w.metadataTwitter)
  }

  /** The handle `get_token_influencers_count` extracts from the row's Twitter URL. */
  function HandleOf(ev: RawEvent, w: World): Option<string> {
    var twitter := TwitterOf(ev, w);
    UserHandle(if twitter.Some? then Some(w.urlPath(twitter.value)) else None)
  }

  /** The specification of `process_data` on one event. */
  function Process(ev: RawEvent, w: World): Step {
    var uri := MetadataUri(ev);
    var metadataCalls := if FetchesMetadata(uri) then [FetchMetadata(uri)] else [];
    var row := Normalize(ev, TwitterOf(ev, w));
    if row.signature == Text(NotAvailable) then Step(None, Dropped, metadataCalls)
    else match OfInterest(row)
      case None => Step(Some(row), Faulted, metadataCalls)
      case Some(false) => Step(Some(row), Routine, metadataCalls)
      case Some(true) =>
        var handle := HandleOf(ev, w);
        var lookupCalls := if ConsultsLookup(handle) then [LookupFollowers(handle.value)] else [];
        var influencers := ReportOf(InfluencersCount(handle, w.followers));
        Step(Some(row), Highlighted(influencers, SafetyOf(w.riskScore(row.mint))),
             metadataCalls + lookupCalls + [FetchRiskSummary(row.mint)])
  }

  /**
   * An event is dropped exactly when its signature is absent or "N/A"; a
   * dropped event is neither logged nor evaluated, and the only request
   * made for it is the metadata fetch of :210, which precedes the check.
   * The "N/A" URI makes no metadata fetch at all.
   * Every other event is logged as its normalised row.
   */
  lemma DroppedIffNoSignature(ev: RawEvent, w: World)
    ensures Process(ev, w).outcome == Dropped <==> Get(ev, "signature", Text(NotAvailable)) == Text(NotAvailable)
    ensures Process(ev, w).logged.None? <==> Process(ev, w).outcome == Dropped
    ensures Process(ev, w).logged.Some? ==> Process(ev, w).logged.value == Normalize(ev, TwitterOf(ev, w))
    ensures Process(ev, w).outcome == Dropped ==>
      forall c :: c in Process(ev, w).calls ==> c == FetchMetadata(MetadataUri(ev))
    ensures !FetchesMetadata(MetadataUri(ev)) ==> forall c :: c in Process(ev, w).calls ==> !c.FetchMetadata?
  {
  }

  /**
   * A logged row is highlighted exactly when it passes the thresholds and
   * faulted exactly when a comparison raised; only a highlighted row makes
   * the follower and risk requests.
   */
  lemma HighlightedIffOfInterest(ev: RawEvent, w: World)
    ensures Process(ev, w).outcome.Highlighted? <==>
      Process(ev, w).logged.Some? && OfInterest(Process(ev, w).logged.value) == Some(true)
    ensures Process(ev, w).outcome == Faulted <==>
      Process(ev, w).logged.Some? && OfInterest(Process(ev, w).logged.value) == None
    ensures Process(ev, w).outcome.Highlighted? ==>
      FetchRiskSummary(Process(ev, w).logged.value.mint) in Process(ev, w).calls
    ensures !Process(ev, w).outcome.Highlighted? ==>
      forall c :: c in Process(ev, w).calls ==> c.FetchMetadata?
  {
  }

  /**
   * For a highlighted row whose handle is blacklisted, the report is "fake
   * handle", the follower lookup is not made, and the risk summary is still
   * fetched.
   */
  lemma BlacklistedHandleSkipsLookup(ev: RawEvent, w: World)
    requires Process(ev, w).outcome.Highlighted?
    requires HandleOf(ev, w).Some? && HandleOf(ev, w).value in TwitterBlacklist
    ensures Process(ev, w).outcome.influencers == FakeHandle
    ensures forall c :: c in Process(ev, w).calls ==> !c.LookupFollowers?
    ensures FetchRiskSummary(Process(ev, w).logged.value.mint) in Process(ev, w).calls
  {
  }

  /**
   * A frame with a signature, amounts above the thresholds and a metadata
   * URI is logged and highlighted.
   */
  lemma HighlightedExample(w: World)
    ensures
      var ev := map["signature" := Text("sig1"), "initialBuy" := Num(2000.0), "solAmount" := Num(0.5),
                    "marketCapSol" := Num(50.0), "mint" := Text("mintA"), "uri" := Text("https://meta/x")];
      Process(ev, w).logged.Some? && Process(ev, w).logged.value.mint == Text("mintA") &&
      Process(ev, w).outcome.Highlighted? &&
      FetchRiskSummary(Text("mintA")) in Process(ev, w).calls
  {
  }

  /** A frame with only a signature and a small initial buy is logged and routine. */
  lemma RoutineExample(w: World)
    ensures
      var ev := map["signature" := Text("sig2"), "initialBuy" := Num(1.0)];
      Process(ev, w).logged.Some? && Process(ev, w).outcome == Routine && Process(ev, w).calls == []
  {
  }

  /** The data rows a sequence of events appends to the log, in receive order. */
  function LoggedRows(events: seq<RawEvent>, w: World): seq<seq<Cell>>
    decreases |events|
  {
    if events == [] then []
    else
      var last := Process(events[|events| - 1], w).logged;
      LoggedRows(events[..|events| - 1], w) + (if last.Some? then [Cells(last.value)] else [])
  }

  /** The outcomes of a sequence of events, in receive order. */
  function Outcomes(events: seq<RawEvent>, w: World): seq<Outcome>
    decreases |events|
  {
    if events == [] then []
    else Outcomes(events[..|events| - 1], w) + [Process(events[|events| - 1], w).outcome]
  }

  /** The i-th outcome is the outcome of the i-th event. */
  lemma {:induction false} OutcomesAt(events: seq<RawEvent>, w: World, i: int)
    requires 0 <= i < |events|
    ensures |Outcomes(events, w)| == |events|
    ensures Outcomes(events, w)[i] == Process(events[i], w).outcome
    decreases |events|
  {
    var n := |events| - 1;
    if i < n {
      OutcomesAt(events[..n], w, i);
    } else if n > 0 {
      OutcomesAt(events[..n], w, 0);
    }
  }

  /** Processing one more event extends the outcomes and the logged rows by its own. */
  lemma ExtendByOne(events: seq<RawEvent>, i: int, w: World)
    requires 0 <= i < |events|
    ensures Outcomes(events[..i + 1], w) == Outcomes(events[..i], w) + [Process(events[i], w).outcome]
    ensures LoggedRows(events[..i + 1], w) == LoggedRows(events[..i], w) +
      (if Process(events[i], w).logged.Some? then [Cells(Process(events[i], w).logged.value)] else [])
  {
    assert events[..i + 1][..i] == events[..i];
    assert events[..i + 1][i] == events[i];
  }

  /** Logging two batches of events in turn logs the rows of both, in order. */
  lemma {:induction false} LoggedRowsConcat(first: seq<RawEvent>, second: seq<RawEvent>, w: World)
    ensures LoggedRows(first + second, w) == LoggedRows(first, w) + LoggedRows(second, w)
    decreases |second|
  {
    if second == [] {
      assert first + second == first;
    } else {
      var n := |second| - 1;
      LoggedRowsConcat(first, second[..n], w);
      assert (first + second)[..|first + second| - 1] == first + second[..n];
      assert (first + second)[|first + second| - 1] == second[n];
    }
  }

  /**
   * `process_data(data)` with the log as its state: the row is appended
   * before the thresholds are evaluated, and only when the signature is not
   * "N/A".
   */
  method ProcessData(log: Log, ev: RawEvent, w: World) returns (outcome: Outcome, calls: seq<Call>)
    requires log.Valid()
    modifies log
    ensures log.Valid()
    ensures outcome == Process(ev, w).outcome && calls == Process(ev, w).calls
    ensures Process(ev, w).logged.None? ==> log.fileExists == old(log.fileExists) && log.rows == old(log.rows)
    ensures Process(ev, w).logged.Some? ==>
      log.fileExists && log.rows == AfterAppend(old(log.fileExists), old(log.rows), Cells(Process(ev, w).logged.value))
  {
    var uri := MetadataUri(ev);
    calls := if FetchesMetadata(uri) then [FetchMetadata(uri)] else [];
    var row := Normalize(ev, TwitterUrl(uri, w.metadataTwitter));
    if row.signature == Text(NotAvailable) {
      return Dropped, calls;
    }
    log.Append(Cells(row));
    var interest := OfInterest(row);
    if interest == None {
      return Faulted, calls;
    }
    if interest == Some(false) {
      return Routine, calls;
    }
    var handle := HandleOf(ev, w);
    var count := InfluencersCount(handle, w.followers);
    if ConsultsLookup(handle) {
      calls := calls + [LookupFollowers(handle.value)];
    }
    calls := calls + [FetchRiskSummary(row.mint)];
    outcome := Highlighted(ReportOf(count), SafetyOf(w.riskScore(row.mint)));
  }

  /**
   * The receive loop over the decoded frames of one session: each event is
   * processed in turn, so the log gains the header (if the file was new and
   * anything was logged) and then exactly one row per valid event, in
   * receive order, after the rows it already held.
   */
  method Run(log: Log, events: seq<RawEvent>, w: World) returns (outcomes: seq<Outcome>)
    requires log.Valid()
    modifies log
    ensures log.Valid()
    ensures outcomes == Outcomes(events, w)
    ensures log.fileExists == (old(log.fileExists) || LoggedRows(events, w) != [])
    ensures log.rows == Appended(old(log.fileExists), old(log.rows), LoggedRows(events, w))
  {
    outcomes := [];
    var i := 0;
    while i < |events|
      invariant 0 <= i <= |events|
      invariant log.Valid()
      invariant outcomes == Outcomes(events[..i], w)
      invariant log.fileExists == (old(log.fileExists) || LoggedRows(events[..i], w) != [])
      invariant log.rows == Appended(old(log.fileExists), old(log.rows), LoggedRows(events[..i], w))
    {
      ExtendByOne(events, i, w);
      ghost var step := Process(events[i], w);
      if step.logged.Some? {
        AppendedSnoc(old(log.fileExists), old(log.rows), LoggedRows(events[..i], w), Cells(step.logged.value));
      }
      var outcome, _ := ProcessData(log, events[i], w);
      outcomes := outcomes + [outcome];
      i := i + 1;
    }
    assert events[..i] == events;
  }
}
