/**
 * The state the API provider of src/context/ApiContext.tsx shares with the UI (`loading`,
 * `error`, `threatData`) and the operations that update it. The HTTP requests themselves
 * are not modelled: each fetch wrapper receives the outcome of its request as an `Outcome`.
 */
module ApiContext {
  import opened Wrappers
  import opened ThreatRecord

  const ShodanFailure: string := "Failed to fetch Shodan data"
  const VirusTotalFailure: string := "Failed to fetch VirusTotal data"
  const VirusTotalSimpleFailure: string := "Failed to fetch VirusTotal simple data"

  /**
   * How a wrapper's request ends: the awaited request resolves with `response.data`, which
   * is a body or a falsy value (`None`), or it rejects (a transport or non-2xx failure).
   */
  datatype Outcome<T> = Resolved(body: Option<T>) | Rejected

  /**
   * What a wrapper returns: the body of a resolved request, or nothing usable, which is
   * the `null` of its `catch` after a rejection or the falsy body of a resolved request.
   */
  function Returned<T>(o: Outcome<T>): (r: Option<T>)
    ensures r.Some? <==> o.Resolved? && o.body.Some?
    ensures o.Rejected? ==> r == None
    ensures o.Resolved? ==> r == o.body
  {
    match o
    case Resolved(b) => b
    case Rejected => None
  }

  /**
   * The error message left once both sub-fetches of an analysis have settled: the message of
   * the one whose request was rejected last, or none when neither was rejected.
   */
  function JoinError(shodanOk: bool, vtOk: bool, shodanSettlesFirst: bool): Option<string> {
    if !shodanOk && !vtOk then Some(if shodanSettlesFirst then VirusTotalSimpleFailure else ShodanFailure)
    else if !shodanOk then Some(ShodanFailure)
    else if !vtOk then Some(VirusTotalSimpleFailure)
    else None
  }

  /** The history after an analysis: one new record exactly when both lookups returned a body. */
  function HistoryAfter(
    prev: seq<ThreatData>, ip: string,
    shodan: Option<ShodanResponse>, vt: Option<VirusTotalSimpleResponse>, stamp: Stamp): seq<ThreatData>
  {
    if shodan.Some? && vt.Some? then PushCapped(BuildThreatRecord(ip, shodan.value, vt.value, stamp), prev)
    else prev
  }

  /** A failed lookup leaves the history exactly as it was. */
  lemma FailedLookupKeepsHistory(
    prev: seq<ThreatData>, ip: string,
    shodan: Option<ShodanResponse>, vt: Option<VirusTotalSimpleResponse>, stamp: Stamp)
    requires shodan.None? || vt.None?
    ensures HistoryAfter(prev, ip, shodan, vt, stamp) == prev
  {
  }

  /** A successful analysis puts its record first and shifts the older ones by one. */
  lemma SuccessfulLookupPrepends(
    prev: seq<ThreatData>, ip: string,
    shodan: ShodanResponse, vt: VirusTotalSimpleResponse, stamp: Stamp)
    ensures var h := HistoryAfter(prev, ip, Some(shodan), Some(vt), stamp);
      |h| == Min(|prev| + 1, MaxHistory) &&
      h[0] == BuildThreatRecord(ip, shodan, vt, stamp) &&
      h[0].ip == ip &&
      forall i | 1 <= i < |h| :: h[i] == prev[i - 1]
  {
  }

  /** Both failing: the message of whichever settled last is the one left. */
  lemma JoinErrorBothFail(shodanSettlesFirst: bool)
    ensures JoinError(false, false, shodanSettlesFirst).Some?
    ensures JoinError(false, false, true) == Some(VirusTotalSimpleFailure)
    ensures JoinError(false, false, false) == Some(ShodanFailure)
  {
  }

  /** The error is cleared exactly when neither request is rejected, whatever the order. */
  lemma JoinErrorNoneIff(shodanOk: bool, vtOk: bool, shodanSettlesFirst: bool)
    ensures JoinError(shodanOk, vtOk, shodanSettlesFirst) == None <==> shodanOk && vtOk
  {
  }

  /**
   * A request that resolves with a falsy body sets no message, yet the analysis builds no
   * record from it: the history is unchanged and, unless the other request is rejected, no
   * error is left.
   */
  lemma FalsyBodyLeavesNoRecord(
    prev: seq<ThreatData>, ip: string,
    shodan: Outcome<ShodanResponse>, vt: Outcome<VirusTotalSimpleResponse>,
    shodanSettlesFirst: bool, stamp: Stamp)
    requires shodan == Resolved(None) || vt == Resolved(None)
    ensures HistoryAfter(prev, ip, Returned(shodan), Returned(vt), stamp) == prev
    ensures shodan == Resolved(None) ==>
      (JoinError(!shodan.Rejected?, !vt.Rejected?, shodanSettlesFirst) == None <==> !vt.Rejected?)
    ensures vt == Resolved(None) ==>
      (JoinError(!shodan.Rejected?, !vt.Rejected?, shodanSettlesFirst) == None <==> !shodan.Rejected?)
  {
  }

  /** The shared state of the provider. */
  class ApiStore {
    var loading: bool
    var error: Option<string>
    var threatData: seq<ThreatData>
    /** Every value `loading` was set to, in order; records what the UI may observe. */
    ghost var loadingLog: seq<bool>

    ghost predicate Valid()
      reads this
    {
      |threatData| <= MaxHistory
    }

    /** The state `analyzeThreat` leaves behind, given the state it started from. */
    ghost predicate SettledAfter(
      prevHistory: seq<ThreatData>, prevLog: seq<bool>, ip: string,
      shodan: Outcome<ShodanResponse>, vt: Outcome<VirusTotalSimpleResponse>,
      shodanSettlesFirst: bool, stamp: Stamp)
      reads this
    {
      && !loading
      // analyzeThreat, then both wrappers set loading; each wrapper's finally clears it as its
      // request settles, before analyzeThreat's own finally does
      && loadingLog == prevLog + [true, true, true, false, false, false]
      && error == JoinError(!shodan.Rejected?, !vt.Rejected?, shodanSettlesFirst)
      && threatData == HistoryAfter(prevHistory, ip, Returned(shodan), Returned(vt), stamp)
    }

    /** The provider's initial state: not loading, no error, empty history. */
    constructor ()
      ensures Valid()
      ensures !loading && error == None && threatData == [] && loadingLog == []
    {
      loading := false;
      error := None;
      threatData := [];
      loadingLog := [];
    }

    /** `clearError`. */
    method ClearError()
      modifies this`error
      ensures error == None
    {
      error := None;
    }

    /** `setLoading`, with the new value recorded. */
    method SetLoading(value: bool)
      modifies this`loading, this`loadingLog
      ensures loading == value && loadingLog == old(loadingLog) + [value]
    {
      loading := value;
      loadingLog := loadingLog + [value];
    }

    /** What every fetch wrapper does before it awaits its request. */
    method BeginFetch()
      modifies this`loading, this`loadingLog, this`error
      ensures loading && error == None && loadingLog == old(loadingLog) + [true]
    {
      SetLoading(true);
      error := None;
    }

    /**
     * What a fetch wrapper does when its request settles: on rejection its `catch` sets the
     * fixed message, and its `finally` clears `loading` in either case.
     */
    method Settle<T>(outcome: Outcome<T>, failure: string) returns (r: Option<T>)
      modifies this`loading, this`loadingLog, this`error
      ensures r == Returned(outcome)
      ensures !loading && loadingLog == old(loadingLog) + [false]
      ensures error == if outcome.Rejected? then Some(failure) else old(error)
    {
      if outcome.Rejected? {
        error := Some(failure);
      }
      SetLoading(false);
      r := Returned(outcome);
    }

    /** `fetchShodanData` called on its own. */
    method FetchShodanData(outcome: Outcome<ShodanResponse>) returns (r: Option<ShodanResponse>)
      modifies this`loading, this`loadingLog, this`error
      ensures r == Returned(outcome) && !loading
      ensures error == if outcome.Rejected? then Some(ShodanFailure) else None
      ensures loadingLog == old(loadingLog) + [true, false]
    {
      BeginFetch();
      r := Settle(outcome, ShodanFailure);
    }

    /** `fetchVirusTotalData` called on its own; the response shape is left abstract. */
    method FetchVirusTotalData<T>(outcome: Outcome<T>) returns (r: Option<T>)
      modifies this`loading, this`loadingLog, this`error
      ensures r == Returned(outcome) && !loading
      ensures error == if outcome.Rejected? then Some(VirusTotalFailure) else None
      ensures loadingLog == old(loadingLog) + [true, false]
    {
      BeginFetch();
      r := Settle(outcome, VirusTotalFailure);
    }

    /** `fetchVirusTotalSimple` called on its own. */
    method FetchVirusTotalSimple(outcome: Outcome<VirusTotalSimpleResponse>) returns (r: Option<VirusTotalSimpleResponse>)
      modifies this`loading, this`loadingLog, this`error
      ensures r == Returned(outcome) && !loading
      ensures error == if outcome.Rejected? then Some(VirusTotalSimpleFailure) else None
      ensures loadingLog == old(loadingLog) + [true, false]
    {
      BeginFetch();
      r := Settle(outcome, VirusTotalSimpleFailure);
    }

    /**
     * `analyzeThreat(ip)`. Both wrappers start (each sets `loading` and clears `error`) before
     * either request settles; `shodanSettlesFirst` says which settles first. Only when both
     * wrappers return a body is a record built and pushed onto the history.
     */
    method AnalyzeThreat(
      ip: string, shodanOutcome: Outcome<ShodanResponse>, vtOutcome: Outcome<VirusTotalSimpleResponse>,
      shodanSettlesFirst: bool, stamp: Stamp)
      requires Valid()
      modifies this
      ensures Valid()
      ensures SettledAfter(old(threatData), old(loadingLog), ip, shodanOutcome, vtOutcome, shodanSettlesFirst, stamp)
    {
      SetLoading(true);
      error := None;

      BeginFetch();
      BeginFetch();
      var shodanData, vtSimpleData;
      if shodanSettlesFirst {
        shodanData := Settle(shodanOutcome, ShodanFailure);
        vtSimpleData := Settle(vtOutcome, VirusTotalSimpleFailure);
      } else {
        vtSimpleData := Settle(vtOutcome, VirusTotalSimpleFailure);
        shodanData := Settle(shodanOutcome, ShodanFailure);
      }

      if shodanData.Some? && vtSimpleData.Some? {
        var threatInfo := BuildThreatRecord(ip, shodanData.value, vtSimpleData.value, stamp);
        threatData := PushCapped(threatInfo, threatData);
      }

      SetLoading(false);
    }
  }

  /**
   * Not part of the provider: a client of the store, showing that the contracts above
   * determine the state after a sequence of analyses.
   */
  method ExampleSession(shodan: ShodanResponse, vt: VirusTotalSimpleResponse, s1: Stamp, s2: Stamp, s3: Stamp)
  {
    var store := new ApiStore();
    store.AnalyzeThreat("1.1.1.1", Resolved(Some(shodan)), Resolved(Some(vt)), true, s1);
    assert |store.threatData| == 1 && store.threatData[0].ip == "1.1.1.1";
    assert store.error == None && !store.loading;
    store.AnalyzeThreat("8.8.8.8", Resolved(Some(shodan)), Rejected, false, s2);
    assert |store.threatData| == 1 && store.threatData[0].ip == "1.1.1.1";
    assert store.error == Some(VirusTotalSimpleFailure);
    store.AnalyzeThreat("9.9.9.9", Resolved(None), Resolved(Some(vt)), true, s3);
    assert |store.threatData| == 1 && store.threatData[0].ip == "1.1.1.1";
    assert store.error == None;
  }
}
