/**
 * The pure part of the threat analysis in src/context/ApiContext.tsx: the shapes of the two
 * service responses, the normalised threat record built from them, the risk rule, and the
 * history that keeps the ten most recent records, newest first.
 */
module ThreatRecord {
  import opened Wrappers
  import Decimal

  /** `location` of one Shodan data item; either name may be absent in the JSON. */
  datatype Location = Location(countryName: Option<string>, city: Option<string>)

  /** One element of the Shodan response's `data` array. */
  datatype ShodanService = ShodanService(location: Option<Location>, product: Option<string>)

  /** `{ org, data: [...] }` from the Shodan lookup. */
  datatype ShodanResponse = ShodanResponse(org: string, data: seq<ShodanService>)

  /** `{ ports, vulns }` from the VirusTotal "simple" lookup. */
  datatype VirusTotalSimpleResponse = VirusTotalSimpleResponse(ports: seq<int>, vulns: seq<string>)

  datatype RiskLevel = Low | Medium | High

  /** The normalised record kept in the history (the `ThreatData` type). */
  datatype ThreatData = ThreatData(
    id: string,
    ip: string,
    country: string,
    city: string,
    org: string,
    ports: seq<int>,
    vulnerabilities: seq<string>,
    riskLevel: RiskLevel,
    lastSeen: string,
    services: seq<string>)

  /**
   * The two readings of the clock an analysis makes: `Date.now()` for the id and
   * `new Date().toISOString()` for `lastSeen`. They are inputs of the model.
   */
  datatype Stamp = Stamp(millis: nat, iso: string)

  const Unknown: string := "Unknown"
  const IdPrefix: string := "threat-"

  /** The number of records the history keeps. */
  const MaxHistory: nat := 10

  function Min(a: int, b: int): int {
    if a <= b then a else b
  }

  /** A JavaScript string value is truthy exactly when it is present and not empty. */
  predicate Truthy(v: Option<string>) {
    v.Some? && v.value != ""
  }

  /** `v || 'Unknown'` on an optional string. */
  function OrUnknown(v: Option<string>): (r: string)
    ensures r != ""
    ensures Truthy(v) ==> r == v.value
    ensures !Truthy(v) ==> r == Unknown
  {
    if Truthy(v) then v.value else Unknown
  }

  /** `data[0]?.location?.country_name`. */
  function FirstCountry(data: seq<ShodanService>): (r: Option<string>)
    ensures r.Some? <==> |data| > 0 && data[0].location.Some? && data[0].location.value.countryName.Some?
    ensures r.Some? ==> r == data[0].location.value.countryName
  {
    if |data| == 0 then None
    else match data[0].location
      case None => None
      case Some(loc) => loc.countryName
  }

  /** `data[0]?.location?.city`. */
  function FirstCity(data: seq<ShodanService>): (r: Option<string>)
    ensures r.Some? <==> |data| > 0 && data[0].location.Some? && data[0].location.value.city.Some?
    ensures r.Some? ==> r == data[0].location.value.city
  {
    if |data| == 0 then None
    else match data[0].location
      case None => None
      case Some(loc) => loc.city
  }

  /**
   * The risk rule: any vulnerability makes the record high risk; otherwise more than
   * five open ports make it medium; otherwise it is low.
   */
  function RiskLevelOf(vulns: seq<string>, ports: seq<int>): (r: RiskLevel)
    ensures r == High <==> |vulns| > 0
    ensures r == Medium <==> |vulns| == 0 && |ports| > 5
    ensures r == Low <==> |vulns| == 0 && |ports| <= 5
  {
    if |vulns| > 0 then High else if |ports| > 5 then Medium else Low
  }

  /** `.filter(Boolean)` on an array of strings: keeps the non-empty ones, in order. */
  function KeepTruthy(xs: seq<string>): (r: seq<string>)
    ensures |r| <= |xs|
    ensures forall k | 0 <= k < |r| :: r[k] != ""
    ensures (forall k | 0 <= k < |xs| :: xs[k] != "") ==> r == xs
    decreases |xs|
  {
    if xs == [] then []
    else
      var rest := KeepTruthy(xs[1..]);
      if xs[0] != "" then [xs[0]] + rest else rest
  }

  /** The filter treats each element on its own: it keeps a string exactly when it is non-empty. */
  lemma KeepTruthySingleton(x: string)
    ensures KeepTruthy([x]) == if x != "" then [x] else []
  {
    assert [x][1..] == [];
  }

  /** The filter distributes over concatenation, so it keeps the non-empty elements in order. */
  lemma {:induction false} KeepTruthyAppend(xs: seq<string>, ys: seq<string>)
    ensures KeepTruthy(xs + ys) == KeepTruthy(xs) + KeepTruthy(ys)
    decreases |xs|
  {
    if xs == [] {
      assert xs + ys == ys;
    } else {
      assert (xs + ys)[0] == xs[0];
      assert (xs + ys)[1..] == xs[1..] + ys;
      KeepTruthyAppend(xs[1..], ys);
    }
  }

  /** `data.map(item => item.product || 'Unknown')`. */
  function ProductNames(data: seq<ShodanService>): (names: seq<string>)
    ensures |names| == |data|
    ensures forall i | 0 <= i < |data| :: names[i] == OrUnknown(data[i].product)
  {
    seq(|data|, i requires 0 <= i < |data| => OrUnknown(data[i].product))
  }

  /** The `threat-${Date.now()}` id. */
  function RecordId(millis: nat): (r: string)
    ensures |r| > |IdPrefix| && r[..|IdPrefix|] == IdPrefix
    ensures r[|IdPrefix|..] == Decimal.Digits(millis)
    ensures forall k | |IdPrefix| <= k < |r| :: Decimal.IsDigit(r[k])
  {
    IdPrefix + Decimal.Digits(millis)
  }

  /**
   * The record built when both lookups succeed. Its services are the product names of all
   * Shodan items, one per item and in the same order: the truthiness filter removes nothing,
   * because every name is either a non-empty product or "Unknown".
   */
  function BuildThreatRecord(
    ip: string, shodan: ShodanResponse, vt: VirusTotalSimpleResponse, stamp: Stamp): (r: ThreatData)
    ensures r.ip == ip && r.org == shodan.org
    ensures r.ports == vt.ports && r.vulnerabilities == vt.vulns
    ensures r.riskLevel == RiskLevelOf(vt.vulns, vt.ports)
    ensures |r.services| == |shodan.data|
    ensures forall i | 0 <= i < |shodan.data| :: r.services[i] == OrUnknown(shodan.data[i].product)
    ensures r.country != "" && r.city != ""
    ensures r.id == RecordId(stamp.millis) && r.lastSeen == stamp.iso
  {
    ThreatData(
      id := RecordId(stamp.millis),
      ip := ip,
      country := OrUnknown(FirstCountry(shodan.data)),
      city := OrUnknown(FirstCity(shodan.data)),
      org := shodan.org,
      ports := vt.ports,
      vulnerabilities := vt.vulns,
      riskLevel := RiskLevelOf(vt.vulns, vt.ports),
      lastSeen := stamp.iso,
      services := KeepTruthy(ProductNames(shodan.data)))
  }

  /**
   * `[rec, ...prev.slice(0, 9)]`: the new record goes first, followed by the older
   * records in their order, and the history is cut to `MaxHistory` entries.
   */
  function PushCapped(rec: ThreatData, prev: seq<ThreatData>): (r: seq<ThreatData>)
    ensures |r| == Min(|prev| + 1, MaxHistory)
    ensures r[0] == rec
    ensures forall i | 1 <= i < |r| :: r[i] == prev[i - 1]
  {
    [rec] + prev[..Min(|prev|, MaxHistory - 1)]
  }

  // ----- Properties of the merge -----

  /** Any vulnerability makes the record high risk, whatever its ports. */
  lemma RiskHighWhenVulnerable(ip: string, shodan: ShodanResponse, vt: VirusTotalSimpleResponse, stamp: Stamp)
    requires |vt.vulns| > 0
    ensures BuildThreatRecord(ip, shodan, vt, stamp).riskLevel == High
  {
  }

  /** Without vulnerabilities the risk is medium exactly when more than five ports are open. */
  lemma RiskWithoutVulnerabilities(vulns: seq<string>, ports: seq<int>)
    requires |vulns| == 0
    ensures RiskLevelOf(vulns, ports) == Medium <==> |ports| > 5
    ensures RiskLevelOf(vulns, ports) == Low <==> |ports| <= 5
  {
  }

  lemma RiskExamples()
    ensures RiskLevelOf(["CVE-1"], [1]) == High
    ensures RiskLevelOf([], [1, 2, 3, 4, 5, 6]) == Medium
    ensures RiskLevelOf([], [1, 2]) == Low
  {
  }

  /** The country and city come from the first Shodan item when it names them, else "Unknown". */
  lemma LocationOfRecord(ip: string, shodan: ShodanResponse, vt: VirusTotalSimpleResponse, stamp: Stamp)
    ensures var r := BuildThreatRecord(ip, shodan, vt, stamp);
      (Truthy(FirstCountry(shodan.data)) ==> r.country == FirstCountry(shodan.data).value) &&
      (!Truthy(FirstCountry(shodan.data)) ==> r.country == Unknown) &&
      (Truthy(FirstCity(shodan.data)) ==> r.city == FirstCity(shodan.data).value) &&
      (!Truthy(FirstCity(shodan.data)) ==> r.city == Unknown)
    ensures |shodan.data| == 0 ==>
      BuildThreatRecord(ip, shodan, vt, stamp).country == Unknown &&
      BuildThreatRecord(ip, shodan, vt, stamp).city == Unknown
  {
  }

  /** Two analyses stamped at different milliseconds get different ids. */
  lemma RecordIdsDistinct(a: nat, b: nat)
    requires a != b
    ensures RecordId(a) != RecordId(b)
  {
    Decimal.DigitsInjective(a, b);
    assert RecordId(a)[|IdPrefix|..] == Decimal.Digits(a);
    assert RecordId(b)[|IdPrefix|..] == Decimal.Digits(b);
  }

  /** The end-to-end example: one nginx service in LA, ports 22 and 80, no vulnerabilities. */
  lemma ExampleMerge(stamp: Stamp)
    ensures var r := BuildThreatRecord(
        "1.1.1.1",
        ShodanResponse("ExampleOrg", [ShodanService(Some(Location(Some("US"), Some("LA"))), Some("nginx"))]),
        VirusTotalSimpleResponse([22, 80], []),
        stamp);
      r.ip == "1.1.1.1" && r.country == "US" && r.city == "LA" && r.org == "ExampleOrg" &&
      r.ports == [22, 80] && r.vulnerabilities == [] && r.riskLevel == Low && r.services == ["nginx"]
  {
  }

  // ----- Properties of the history -----

  /** The first `MaxHistory` elements of a sequence. */
  function Newest(s: seq<ThreatData>): seq<ThreatData> {
    s[..Min(|s|, MaxHistory)]
  }

  function Reverse(s: seq<ThreatData>): (r: seq<ThreatData>)
    ensures |r| == |s|
    decreases |s|
  {
    if s == [] then [] else [s[|s| - 1]] + Reverse(s[..|s| - 1])
  }

  /** The history after the records `recs` were added one after the other, oldest first. */
  function RecordAll(prev: seq<ThreatData>, recs: seq<ThreatData>): seq<ThreatData>
    decreases |recs|
  {
    if recs == [] then prev
    else PushCapped(recs[|recs| - 1], RecordAll(prev, recs[..|recs| - 1]))
  }

  /** One push keeps the newest `MaxHistory` records of the new record followed by the old ones. */
  lemma PushCappedIsNewest(rec: ThreatData, prev: seq<ThreatData>)
    ensures PushCapped(rec, Newest(prev)) == Newest([rec] + prev)
  {
    var lhs := PushCapped(rec, Newest(prev));
    var rhs := Newest([rec] + prev);
    assert |lhs| == |rhs|;
    forall i | 0 <= i < |lhs| ensures lhs[i] == rhs[i] {
      if i > 0 {
        assert lhs[i] == Newest(prev)[i - 1];
      }
    }
  }

  /**
   * Eviction is by insertion order: after any number of pushes the history holds the newest
   * `MaxHistory` of all records, newest first, followed by as many old entries as still fit.
   */
  lemma {:induction false} RecordAllKeepsNewest(prev: seq<ThreatData>, recs: seq<ThreatData>)
    requires |prev| <= MaxHistory
    ensures RecordAll(prev, recs) == Newest(Reverse(recs) + prev)
    decreases |recs|
  {
    if recs == [] {
      assert Reverse(recs) + prev == prev;
    } else {
      var init, last := recs[..|recs| - 1], recs[|recs| - 1];
      RecordAllKeepsNewest(prev, init);
      PushCappedIsNewest(last, Reverse(init) + prev);
      assert Reverse(recs) + prev == [last] + (Reverse(init) + prev);
    }
  }

  /** The history never exceeds `MaxHistory` entries, and the latest record is at the front. */
  lemma RecordAllBounded(prev: seq<ThreatData>, recs: seq<ThreatData>)
    requires |prev| <= MaxHistory
    ensures |RecordAll(prev, recs)| <= MaxHistory
    ensures recs != [] ==> RecordAll(prev, recs)[0] == recs[|recs| - 1]
  {
    RecordAllKeepsNewest(prev, recs);
  }

  /** After at least `MaxHistory` pushes no older entry survives. */
  lemma RecordAllForgetsOld(prev: seq<ThreatData>, recs: seq<ThreatData>)
    requires |prev| <= MaxHistory && |recs| >= MaxHistory
    ensures RecordAll(prev, recs) == Reverse(recs)[..MaxHistory]
  {
    RecordAllKeepsNewest(prev, recs);
    assert (Reverse(recs) + prev)[..MaxHistory] == Reverse(recs)[..MaxHistory];
  }
}
