/**
 * The enrichment steps of `process_data` for a row of interest: the guard
 * of `get_twitter_url` (pump_fun_scraper.py:69-93), the influencer count of
 * `get_token_influencers_count` (:136-173) and its report (:244-249), and
 * the risk verdict (:256-263). Every HTTP call is a function parameter that
 * stands for the collaborator's answer.
 */
module Enrichment {
  import opened Wrappers
  import opened Config
  import opened Record
  import opened TwitterHandle

  /** Whether `get_twitter_url` issues its request: not for the "N/A" sentinel. */
  predicate FetchesMetadata(uri: Cell) {
    uri != Text(NotAvailable)
  }

  /**
   * `get_twitter_url(uri)`. `fetch(uri)` is the "twitter" field of the
   * fetched metadata document, None when the request fails or the field is
   * absent; an empty string is falsy and also gives None.
   */
  function TwitterUrl(uri: Cell, fetch: Cell -> Option<string>): Option<string> {
    if !FetchesMetadata(uri) then None
    else match fetch(uri)
      case Some(t) => if t != "" then Some(t) else None
      case None => None
  }

  /**
   * The Twitter URL is the fetched non-empty "twitter" field, and nothing
   * is fetched for the sentinel: the result then is None whatever the
   * collaborator would answer.
   */
  lemma TwitterUrlIsNonEmptyFetchedField(uri: Cell, fetch: Cell -> Option<string>, other: Cell -> Option<string>)
    ensures TwitterUrl(uri, fetch).Some? <==> FetchesMetadata(uri) && fetch(uri).Some? && fetch(uri).value != ""
    ensures TwitterUrl(uri, fetch).Some? ==> TwitterUrl(uri, fetch) == fetch(uri)
    ensures !FetchesMetadata(uri) ==> TwitterUrl(uri, fetch) == TwitterUrl(uri, other) == None
  {
  }

  /** Whether `get_token_influencers_count` calls the follower lookup for this handle. */
  predicate ConsultsLookup(handle: Option<string>) {
    handle.Some? && handle.value !in TwitterBlacklist
  }

  /**
   * `get_token_influencers_count` after the handle is extracted.
   * `lookup(h)` is the lookup's answer: None when the request fails,
   * Some(None) when "followers_count" is absent, Some(Some(n)) otherwise.
   */
  function InfluencersCount(handle: Option<string>, lookup: string -> Option<Option<int>>): int {
    if handle.None? then 0
    else if handle.value in TwitterBlacklist then -1
    else match lookup(handle.value)
      case None => 0
      case Some(None) => 0
      case Some(Some(n)) => n
  }

  /** The three messages of :244-249. */
  datatype InfluencerReport = Influencers(count: int) | FakeHandle | NoInfluencers

  /** Exactly one branch is taken: positive, negative or zero. */
  function ReportOf(count: int): (r: InfluencerReport)
    ensures r.Influencers? <==> count > 0
    ensures r.FakeHandle? <==> count < 0
    ensures r.NoInfluencers? <==> count == 0
    ensures r.Influencers? ==> r.count == count
  {
    if count > 0 then Influencers(count)
    else if count < 0 then FakeHandle
    else NoInfluencers
  }

  /**
   * The count is -1 for a blacklisted handle and 0 without a handle, and
   * the lookup is only consulted otherwise: then the count is the looked-up
   * "followers_count", or 0 when it is absent or the request failed.
   */
  lemma InfluencersCountCases(handle: Option<string>, lookup: string -> Option<Option<int>>, other: string -> Option<Option<int>>)
    ensures handle.None? ==> InfluencersCount(handle, lookup) == 0
    ensures handle.Some? && handle.value in TwitterBlacklist ==> InfluencersCount(handle, lookup) == -1
    ensures !ConsultsLookup(handle) ==> InfluencersCount(handle, lookup) == InfluencersCount(handle, other)
    ensures ConsultsLookup(handle) ==>
      InfluencersCount(handle, lookup) == (if lookup(handle.value).Some? && lookup(handle.value).value.Some? then lookup(handle.value).value.value else 0)
  {
  }

  /**
   * The fake-handle branch is taken exactly for a blacklisted handle or a
   * negative looked-up count; the influencers branch exactly for a positive
   * looked-up count.
   */
  lemma ReportBranches(handle: Option<string>, lookup: string -> Option<Option<int>>)
    ensures ReportOf(InfluencersCount(handle, lookup)).FakeHandle? <==>
      (handle.Some? && handle.value in TwitterBlacklist) ||
      (ConsultsLookup(handle) && lookup(handle.value).Some? && lookup(handle.value).value.Some? && lookup(handle.value).value.value < 0)
    ensures ReportOf(InfluencersCount(handle, lookup)).Influencers? <==>
      ConsultsLookup(handle) && lookup(handle.value).Some? && lookup(handle.value).value.Some? && lookup(handle.value).value.value > 0
  {
  }

  /**
   * With the path extracted correctly, a blacklisted account named first in
   * a URL's path, as in `/elonmusk/status/1`, is reported as fake, whatever
   * the lookup would answer.
   */
  lemma BlacklistedStatusPathIsFake(h: string, rest: string, lookup: string -> Option<Option<int>>)
    requires h in TwitterBlacklist
    ensures ReportOf(InfluencersCount(UserHandle(Some("/" + h + "/" + rest)), lookup)) == FakeHandle
  {
    var p := "/" + h + "/" + rest;
    assert '/' !in h && h != "";
    assert p[..1] == "/";
    assert p[1..][..|h|] == h;
    assert p[1..][|h|] == '/';
    assert IsFirstSegment(p[1..], h);
    assert HandleAt(p, 1, h);
    UserHandleIsTheHandle(p, h);
  }

  /**
   * As shipped, no URL yields a handle, so the count is always 0: a
   * blacklisted account is reported as having no influencers instead of as
   * fake, and the follower lookup is never made.
   */
  lemma AsWrittenNeverFlagsFakeHandles(url: Option<string>, lookup: string -> Option<Option<int>>)
    ensures InfluencersCount(UserHandleAsWritten(url), lookup) == 0
    ensures !ConsultsLookup(UserHandleAsWritten(url))
    ensures ReportOf(InfluencersCount(UserHandleAsWritten(Some("https://x.com/elonmusk/status/1")), lookup)) == NoInfluencers
    ensures ReportOf(InfluencersCount(UserHandle(Some("/elonmusk/status/1")), lookup)) == FakeHandle
  {
    assert "elonmusk" == TwitterBlacklist[0];
    assert "/" + "elonmusk" + "/" + "status/1" == "/elonmusk/status/1";
    BlacklistedStatusPathIsFake("elonmusk", "status/1", lookup);
  }

  /** The verdict of :260-263 on a risk score. */
  datatype SafetyVerdict = Safe(score: real) | Unsafe(score: real)

  /**
   * The risk summary's score, when the summary was fetched: a score at or
   * below MIN_SAFETY_SCORE is safe, any larger one unsafe; no summary gives
   * no verdict.
   */
  function SafetyOf(summaryScore: Option<real>): (v: Option<SafetyVerdict>)
    ensures v.Some? <==> summaryScore.Some?
    ensures v.Some? ==> v.value.score == summaryScore.value
    ensures v.Some? ==> (v.value.Safe? <==> summaryScore.value <= MinSafetyScore)
  {
    match summaryScore
    case None => None
    case Some(score) =>
      if score <= MinSafetyScore then Some(Safe(score)) else Some(Unsafe(score))
  }

  /** The safety bound is inclusive: 500 is safe and anything above it is not. */
  lemma SafetyBoundInclusive()
    ensures SafetyOf(Some(500.0)) == Some(Safe(500.0))
    ensures SafetyOf(Some(500.5)) == Some(Unsafe(500.5))
  {
  }
}
