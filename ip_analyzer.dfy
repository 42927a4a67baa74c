/**
 * The form of src/components/ThreatAnalysis/IpAnalyzer.tsx: the input's validity flag, the
 * submit button's `disabled` condition, and the submit handler that trims the input and
 * starts an analysis.
 */
module IpAnalyzer {
  import opened Wrappers
  import opened Decimal
  import opened IpValidation
  import opened ThreatRecord
  import opened ApiContext

  /**
   * The characters `String.prototype.trim` removes: the ECMAScript WhiteSpace characters
   * (tab, vertical tab, form feed, space, no-break space, byte order mark and the other
   * space separators) and the LineTerminator characters.
   */
  predicate IsTrimmable(c: char) {
    || c == '\t' || c == '\n' || c == '\U{B}' || c == '\U{C}' || c == '\r' || c == ' '
    || c == '\U{A0}' || c == '\U{1680}' || ('\U{2000}' <= c <= '\U{200A}')
    || c == '\U{2028}' || c == '\U{2029}' || c == '\U{202F}' || c == '\U{205F}'
    || c == '\U{3000}' || c == '\U{FEFF}'
  }

  /** The input without its leading whitespace. */
  function TrimStart(s: string): (r: string)
    ensures |r| <= |s| && r == s[|s| - |r|..]
    ensures r == [] || !IsTrimmable(r[0])
    ensures forall k | 0 <= k < |s| - |r| :: IsTrimmable(s[k])
    decreases |s|
  {
    if s != [] && IsTrimmable(s[0]) then TrimStart(s[1..]) else s
  }

  /** The input without its trailing whitespace. */
  function TrimEnd(s: string): (r: string)
    ensures |r| <= |s| && r == s[..|r|]
    ensures r == [] || !IsTrimmable(r[|r| - 1])
    ensures forall k | |r| <= k < |s| :: IsTrimmable(s[k])
    decreases |s|
  {
    if s != [] && IsTrimmable(s[|s| - 1]) then TrimEnd(s[..|s| - 1]) else s
  }

  lemma {:induction false} TrimStartEmptyIff(s: string)
    ensures TrimStart(s) == [] <==> forall k | 0 <= k < |s| :: IsTrimmable(s[k])
    decreases |s|
  {
    if s != [] && IsTrimmable(s[0]) {
      TrimStartEmptyIff(s[1..]);
      assert forall k | 1 <= k < |s| :: s[k] == s[1..][k - 1];
    }
  }

  lemma TrimEndEmptyIff(s: string)
    requires s == [] || !IsTrimmable(s[0])
    ensures TrimEnd(s) == [] <==> s == []
  {
    if s != [] {
      assert IsTrimmable(s[0]) || TrimEnd(s) != [];
    }
  }

  /** Every character of `u` is whitespace. */
  predicate AllTrimmable(u: string) {
    forall k | 0 <= k < |u| :: IsTrimmable(u[k])
  }

  /** What `TrimStart` cuts off is all whitespace. */
  lemma {:induction false} TrimStartCut(s: string)
    ensures AllTrimmable(s[..|s| - |TrimStart(s)|])
  {
    var i := |s| - |TrimStart(s)|;
    assert forall k | 0 <= k < i :: s[..i][k] == s[k];
  }

  /** What `TrimEnd` cuts off is all whitespace. */
  lemma {:induction false} TrimEndCut(t: string)
    ensures AllTrimmable(t[|TrimEnd(t)|..])
  {
    var j := |TrimEnd(t)|;
    assert forall k | 0 <= k < |t| - j :: t[j..][k] == t[j + k];
  }

  /** Trimming both ends leaves a slice of the input with only whitespace cut on either side. */
  lemma {:induction false} TrimBothIsSlice(s: string)
    ensures exists i, j | 0 <= i <= j <= |s| ::
      TrimEnd(TrimStart(s)) == s[i..j] && AllTrimmable(s[..i]) && AllTrimmable(s[j..])
  {
    var t := TrimStart(s);
    var r := TrimEnd(t);
    var i := |s| - |t|;
    var j := i + |r|;
    TrimStartCut(s);
    TrimEndCut(t);
    assert t == s[i..];
    assert r == s[i..j];
    assert s[j..] == t[|r|..];
    assert 0 <= i <= j <= |s| && r == s[i..j] && AllTrimmable(s[..i]) && AllTrimmable(s[j..]);
  }

  /** Trimming both ends gives nothing exactly when the input is all whitespace. */
  lemma {:induction false} TrimBothEmptyIff(s: string)
    ensures TrimEnd(TrimStart(s)) == [] <==> AllTrimmable(s)
  {
    TrimStartEmptyIff(s);
    TrimEndEmptyIff(TrimStart(s));
  }

  /** Trimming both ends leaves no whitespace at either end. */
  lemma {:induction false} TrimBothEnds(s: string)
    ensures var r := TrimEnd(TrimStart(s));
      r == [] || (!IsTrimmable(r[0]) && !IsTrimmable(r[|r| - 1]))
  {
    var t := TrimStart(s);
    var r := TrimEnd(t);
    assert r != [] ==> r[0] == t[0];
  }

  /** `s.trim()`: the input with its leading and trailing whitespace removed. */
  function Trim(s: string): (r: string)
    ensures exists i, j | 0 <= i <= j <= |s| :: r == s[i..j] && AllTrimmable(s[..i]) && AllTrimmable(s[j..])
    ensures r == [] <==> forall k | 0 <= k < |s| :: IsTrimmable(s[k])
    ensures r == [] || (!IsTrimmable(r[0]) && !IsTrimmable(r[|r| - 1]))
  {
    TrimBothIsSlice(s);
    TrimBothEmptyIff(s);
    TrimBothEnds(s);
    TrimEnd(TrimStart(s))
  }

  /** A string that neither starts nor ends with whitespace is its own trim. */
  lemma TrimUnchanged(s: string)
    requires s != [] && !IsTrimmable(s[0]) && !IsTrimmable(s[|s| - 1])
    ensures Trim(s) == s
  {
    assert TrimStart(s) == s;
  }

  /** `isValidIp`: the empty input counts as valid (nothing is flagged); otherwise `validateIp`. */
  function IsValidIp(ipAddress: string): (r: bool)
    ensures r <==> ipAddress == "" || IsDottedQuad(ipAddress)
  {
    ipAddress == "" || ValidateIp(ipAddress)
  }

  /** The submit button's `disabled` attribute. */
  function SubmitDisabled(loading: bool, ipAddress: string): (r: bool)
    ensures loading ==> r
    ensures (forall k | 0 <= k < |ipAddress| :: IsTrimmable(ipAddress[k])) ==> r
  {
    loading || !IsValidIp(ipAddress) || Trim(ipAddress) == ""
  }

  /** An input holding any whitespace, even around a valid address, is rejected. */
  lemma WhitespaceRejected(s: string, k: int)
    requires 0 <= k < |s| && IsTrimmable(s[k])
    ensures !ValidateIp(s)
    ensures s != "" ==> !IsValidIp(s)
  {
    if ValidateIp(s) {
      AcceptedCharacters(s);
      assert false;
    }
  }

  lemma NotTrimmable(c: char)
    requires IsDigit(c) || c == '.'
    ensures !IsTrimmable(c)
  {
  }

  /** An accepted address is left unchanged by trimming. */
  lemma TrimKeepsValidAddress(s: string)
    requires ValidateIp(s)
    ensures Trim(s) == s && s != ""
  {
    AcceptedCharacters(s);
    NotTrimmable(s[0]);
    NotTrimmable(s[|s| - 1]);
    TrimUnchanged(s);
  }

  /** The button can be pressed exactly when nothing is loading and the input is a valid address. */
  lemma SubmitEnabledIff(loading: bool, ipAddress: string)
    ensures !SubmitDisabled(loading, ipAddress) <==> !loading && ValidateIp(ipAddress)
  {
    if ValidateIp(ipAddress) {
      TrimKeepsValidAddress(ipAddress);
    }
  }

  /** Through the button, the handler always analyzes the input exactly as typed. */
  lemma EnabledSubmitPassesInputUnchanged(loading: bool, ipAddress: string)
    requires !SubmitDisabled(loading, ipAddress)
    ensures Trim(ipAddress) == ipAddress && ipAddress != ""
    ensures IsDottedQuad(ipAddress)
  {
    SubmitEnabledIff(loading, ipAddress);
    TrimKeepsValidAddress(ipAddress);
  }

  lemma GatingExamples()
    ensures IsValidIp("")
    ensures SubmitDisabled(false, "")
    ensures !IsValidIp(" ")
    ensures SubmitDisabled(false, " ")
    ensures !IsValidIp(" 1.1.1.1")
    ensures SubmitDisabled(true, "1.1.1.1")
  {
    WhitespaceRejected(" ", 0);
    WhitespaceRejected(" 1.1.1.1", 0);
  }

  /** The form: its text field's value and the store it reports to. */
  class IpAnalyzerForm {
    var ipAddress: string
    const api: ApiStore

    constructor (api: ApiStore)
      ensures this.api == api && ipAddress == ""
    {
      this.api := api;
      ipAddress := "";
    }

    /** The input's `onChange`. */
    method SetIpAddress(value: string)
      modifies this`ipAddress
      ensures ipAddress == value
    {
      ipAddress := value;
    }

    /**
     * `handleAnalyze`: on a blank input it returns at once; otherwise it clears the error and
     * runs the analysis on the trimmed input. `analyzed` is the address handed to the analysis,
     * if any. The request outcomes, their settlement order and the clock are inputs.
     */
    method HandleAnalyze(
      shodanOutcome: Outcome<ShodanResponse>, vtOutcome: Outcome<VirusTotalSimpleResponse>,
      shodanSettlesFirst: bool, stamp: Stamp)
      returns (analyzed: Option<string>)
      requires api.Valid()
      modifies api
      ensures api.Valid()
      ensures Trim(ipAddress) == "" ==> analyzed == None && unchanged(api)
      ensures Trim(ipAddress) != "" ==>
        analyzed == Some(Trim(ipAddress)) &&
        api.SettledAfter(old(api.threatData), old(api.loadingLog), Trim(ipAddress),
                         shodanOutcome, vtOutcome, shodanSettlesFirst, stamp)
    {
      var trimmed := Trim(ipAddress);
      if trimmed == "" {
        return None;
      }
      api.ClearError();
      api.AnalyzeThreat(trimmed, shodanOutcome, vtOutcome, shodanSettlesFirst, stamp);
      analyzed := Some(trimmed);
    }
  }
}
