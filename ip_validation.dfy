/**
 * The dotted-quad check of src/components/ThreatAnalysis/IpAnalyzer.tsx (`validateIp`).
 * Three views of one language are related here:
 *  - MatchesIpRegex: the anchored regular expression, alternative by alternative;
 *  - IsDottedQuad: "four dot-separated fields, each 1 to 3 digits worth at most 255";
 *  - ValidateIp: a left-to-right recogniser that keeps the field count, length and value.
 */
module IpValidation {
  import opened Decimal

  predicate NoDot(s: string) {
    forall k | 0 <= k < |s| :: s[k] != '.'
  }

  /** A field of an address: one to three digits whose value is at most 255. */
  predicate IsOctet(g: string) {
    1 <= |g| <= 3 && AllDigits(g) && Value(g) <= 255
  }

  /** The index of the first dot, or the length when there is none. */
  function DotIndex(u: string): (i: nat)
    ensures i <= |u|
    ensures i < |u| ==> u[i] == '.'
    ensures NoDot(u[..i])
    decreases |u|
  {
    if u == [] || u[0] == '.' then 0
    else
      var j := DotIndex(u[1..]);
      assert u[..1 + j] == [u[0]] + u[1..][..j];
      1 + j
  }

  /** The dot-separated fields of a string, as `split('.')` gives them. */
  function Fields(u: string): (fs: seq<string>)
    ensures |fs| >= 1
    decreases |u|
  {
    var i := DotIndex(u);
    if i == |u| then [u] else [u[..i]] + Fields(u[i + 1..])
  }

  /** Fields joined back with dots; the inverse of `Fields`. */
  function JoinDots(fs: seq<string>): string
    requires |fs| >= 1
    decreases |fs|
  {
    if |fs| == 1 then fs[0] else fs[0] + ['.'] + JoinDots(fs[1..])
  }

  /** `u` splits at its dots into exactly `m` fields, each of them an octet. */
  predicate OctetFields(u: string, m: nat) {
    var fs := Fields(u);
    |fs| == m && forall k | 0 <= k < |fs| :: IsOctet(fs[k])
  }

  /** The plain-words statement of what `validateIp` accepts. */
  predicate IsDottedQuad(s: string) {
    OctetFields(s, 4)
  }

  // ----- Splitting and joining -----

  lemma JoinDotsFour(fs: seq<string>)
    requires |fs| == 4
    ensures JoinDots(fs) == fs[0] + ['.'] + fs[1] + ['.'] + fs[2] + ['.'] + fs[3]
  {
    assert fs[1..][1..][1..] == [fs[3]];
    assert fs[1..][1..] == fs[2..];
    assert JoinDots(fs[2..]) == fs[2] + ['.'] + fs[3];
  }

  lemma {:induction false} DotIndexAfterDotFree(p: string, w: string)
    requires NoDot(p)
    ensures DotIndex(p + w) == |p| + DotIndex(w)
    decreases |p|
  {
    if p != [] {
      assert (p + w)[1..] == p[1..] + w;
      DotIndexAfterDotFree(p[1..], w);
    } else {
      assert p + w == w;
    }
  }

  /** A dot-free string is a single field. */
  lemma FieldsOfDotFree(p: string)
    requires NoDot(p)
    ensures Fields(p) == [p]
  {
    DotIndexAfterDotFree(p, []);
    assert p + [] == p;
  }

  /** A dot-free prefix followed by a dot is the first field. */
  lemma FieldsAfterDot(p: string, w: string)
    requires NoDot(p)
    ensures Fields(p + ['.'] + w) == [p] + Fields(w)
  {
    var u := p + ['.'] + w;
    DotIndexAfterDotFree(p, ['.'] + w);
    assert p + (['.'] + w) == u;
    assert u[..|p|] == p && u[|p| + 1..] == w;
  }

  /** A dot-free prefix becomes the start of the first field. */
  lemma FieldsHead(p: string, w: string)
    requires NoDot(p)
    ensures Fields(p + w)[0] == p + Fields(w)[0]
    ensures |Fields(w)[0]| == DotIndex(w)
  {
    DotIndexAfterDotFree(p, w);
    var j := DotIndex(w);
    if j < |w| {
      assert (p + w)[..|p| + j] == p + w[..j];
    } else {
      assert w[..j] == w;
    }
  }

  /** Splitting what was joined gives back the fields. */
  lemma {:induction false} FieldsOfJoin(fs: seq<string>)
    requires |fs| >= 1 && forall k | 0 <= k < |fs| :: NoDot(fs[k])
    ensures Fields(JoinDots(fs)) == fs
    decreases |fs|
  {
    if |fs| == 1 {
      FieldsOfDotFree(fs[0]);
    } else {
      FieldsOfJoin(fs[1..]);
      FieldsAfterDot(fs[0], JoinDots(fs[1..]));
      assert [fs[0]] + fs[1..] == fs;
    }
  }

  /** Joining the fields gives back the string, and no field contains a dot. */
  lemma {:induction false} JoinOfFields(u: string)
    ensures JoinDots(Fields(u)) == u
    ensures forall k | 0 <= k < |Fields(u)| :: NoDot(Fields(u)[k])
    decreases |u|
  {
    var i := DotIndex(u);
    if i < |u| {
      JoinOfFields(u[i + 1..]);
      var fs := Fields(u);
      assert fs[1..] == Fields(u[i + 1..]);
      assert u == u[..i] + ['.'] + u[i + 1..];
    }
  }

  /** A string without dots is one field. */
  lemma OctetFieldsOfDotFree(p: string, m: nat)
    requires NoDot(p)
    ensures OctetFields(p, m) <==> m == 1 && IsOctet(p)
  {
    FieldsOfDotFree(p);
    assert Fields(p)[0] == p;
  }

  /** Closing a dot-free first field: the rest must hold the remaining fields. */
  lemma OctetFieldsAfterDot(p: string, w: string, m: nat)
    requires NoDot(p)
    ensures OctetFields(p + ['.'] + w, m + 1) <==> IsOctet(p) && OctetFields(w, m)
  {
    FieldsAfterDot(p, w);
    var fs := Fields(p + ['.'] + w);
    var rest := Fields(w);
    assert fs == [p] + rest;
    if OctetFields(p + ['.'] + w, m + 1) {
      assert IsOctet(fs[0]);
      forall k | 0 <= k < |rest| ensures IsOctet(rest[k]) {
        assert rest[k] == fs[k + 1];
      }
    }
    if IsOctet(p) && OctetFields(w, m) {
      forall k | 0 <= k < |fs| ensures IsOctet(fs[k]) {
        if k > 0 {
          assert fs[k] == rest[k - 1];
        }
      }
    }
  }

  // ----- The regular expression -----

  /** `[01]?[0-9][0-9]?`: one to three digits, the first of three being 0 or 1. */
  predicate ShortOctetAlternative(g: string) {
    || (|g| == 1 && IsDigit(g[0]))
    || (|g| == 2 && IsDigit(g[0]) && IsDigit(g[1]))
    || (|g| == 3 && (g[0] == '0' || g[0] == '1') && IsDigit(g[1]) && IsDigit(g[2]))
  }

  /** `25[0-5]|2[0-4][0-9]|[01]?[0-9][0-9]?`. */
  predicate RegexOctet(g: string) {
    || (|g| == 3 && g[0] == '2' && g[1] == '5' && '0' <= g[2] <= '5')
    || (|g| == 3 && g[0] == '2' && '0' <= g[1] <= '4' && IsDigit(g[2]))
    || ShortOctetAlternative(g)
  }

  /**
   * `(?:(?:OCTET)\.){n}(?:OCTET)` matched against the whole of `s`: n fields each followed
   * by a dot, then a last field.
   */
  ghost predicate MatchesGroups(s: string, n: nat)
    decreases n
  {
    if n == 0 then RegexOctet(s)
    else exists i | 0 <= i < |s| :: s[i] == '.' && RegexOctet(s[..i]) && MatchesGroups(s[i + 1..], n - 1)
  }

  /** n dot-terminated groups and a last field take between 2n + 1 and 4n + 3 characters. */
  lemma {:induction false} MatchesGroupsLength(s: string, n: nat)
    requires MatchesGroups(s, n)
    ensures 2 * n + 1 <= |s| <= 4 * n + 3
    decreases n
  {
    if n > 0 {
      var i :| 0 <= i < |s| && s[i] == '.' && RegexOctet(s[..i]) && MatchesGroups(s[i + 1..], n - 1);
      assert 1 <= |s[..i]| <= 3;
      MatchesGroupsLength(s[i + 1..], n - 1);
      assert |s| == i + 1 + |s[i + 1..]|;
    }
  }

  /** `^(?:(?:OCTET)\.){3}(?:OCTET)$`, anchored at both ends. */
  ghost function MatchesIpRegex(s: string): (r: bool)
    ensures r ==> 7 <= |s| <= 15
  {
    if MatchesGroups(s, 3) then MatchesGroupsLength(s, 3); true else false
  }

  /** The alternation accepts exactly the fields of one to three digits worth at most 255. */
  lemma RegexOctetIsOctet(g: string)
    ensures RegexOctet(g) <==> IsOctet(g)
  {
    if |g| == 3 && AllDigits(g) {
      Value3(g);
    } else if 1 <= |g| <= 2 && AllDigits(g) {
      ValueBound(g);
    }
  }

  /** A string is its prefix, a dot and its suffix around any dot in it. */
  lemma SplitAtDot(s: string, i: int)
    requires 0 <= i < |s| && s[i] == '.'
    ensures s == s[..i] + ['.'] + s[i + 1..]
  {
  }

  /** No repetition: the pattern is a single octet. */
  lemma MatchesNoGroup(s: string)
    ensures MatchesGroups(s, 0) <==> OctetFields(s, 1)
  {
    RegexOctetIsOctet(s);
    var i := DotIndex(s);
    if i < |s| {
      SplitAtDot(s, i);
      OctetFieldsAfterDot(s[..i], s[i + 1..], 0);
      assert !IsDigit(s[i]);
    } else {
      assert s[..i] == s;
      OctetFieldsOfDotFree(s, 1);
    }
  }

  /** An octet holds no dot, so a match's first field always ends at the first dot. */
  lemma MatchesGroupsFirstDot(s: string, n: nat)
    requires n > 0
    ensures MatchesGroups(s, n) <==>
      DotIndex(s) < |s| && RegexOctet(s[..DotIndex(s)]) && MatchesGroups(s[DotIndex(s) + 1..], n - 1)
  {
    var i := DotIndex(s);
    if MatchesGroups(s, n) {
      var j :| 0 <= j < |s| && s[j] == '.' && RegexOctet(s[..j]) && MatchesGroups(s[j + 1..], n - 1);
      RegexOctetIsOctet(s[..j]);
      assert forall k | 0 <= k < j :: s[k] == s[..j][k];
      assert forall k | 0 <= k < i :: s[k] == s[..i][k];
      assert i == j;
    }
  }

  /** The inductive step: the first field ends at the first dot, the rest holds n fields. */
  lemma MatchesGroupsAtDot(s: string, n: nat)
    requires n > 0 && DotIndex(s) < |s|
    requires MatchesGroups(s[DotIndex(s) + 1..], n - 1) <==> OctetFields(s[DotIndex(s) + 1..], n)
    ensures RegexOctet(s[..DotIndex(s)]) && MatchesGroups(s[DotIndex(s) + 1..], n - 1) <==> OctetFields(s, n + 1)
  {
    var i := DotIndex(s);
    RegexOctetIsOctet(s[..i]);
    SplitAtDot(s, i);
    OctetFieldsAfterDot(s[..i], s[i + 1..], n);
  }

  /** The pattern with n repetitions matches exactly the strings of n + 1 octet fields. */
  lemma {:induction false} MatchesGroupsIff(s: string, n: nat)
    ensures MatchesGroups(s, n) <==> OctetFields(s, n + 1)
    decreases n
  {
    if n == 0 {
      MatchesNoGroup(s);
    } else {
      MatchesGroupsFirstDot(s, n);
      var i := DotIndex(s);
      if i == |s| {
        assert s[..i] == s;
        OctetFieldsOfDotFree(s, n + 1);
      } else {
        MatchesGroupsIff(s[i + 1..], n - 1);
        MatchesGroupsAtDot(s, n);
      }
    }
  }

  /** The regular expression accepts exactly the dotted quads. */
  lemma RegexMatchesDottedQuad(s: string)
    ensures MatchesIpRegex(s) <==> IsDottedQuad(s)
  {
    MatchesGroupsIff(s, 3);
  }

  // ----- The recogniser -----

  /** The rest of the input `t`, with `groups` fields behind and a field of `len` digits worth `val` open. */
  function Scan(t: string, groups: nat, len: nat, val: nat): bool
    decreases |t|
  {
    if t == [] then groups == 3 && 1 <= len && val <= 255
    else if IsDigit(t[0]) then len < 3 && Scan(t[1..], groups, len + 1, val * 10 + DigitValue(t[0]))
    else if t[0] == '.' then groups < 3 && 1 <= len && val <= 255 && Scan(t[1..], groups + 1, 0, 0)
    else false
  }

  /** What remains to be checked: the fields of `u` are the last `4 - groups` octets. */
  predicate QuadRest(u: string, groups: nat) {
    groups <= 3 && OctetFields(u, 4 - groups)
  }

  /** A field longer than three characters, or holding a non-digit, fails the check. */
  lemma BadFirstField(cur: string, t: string, m: nat)
    requires NoDot(cur) && t != [] && t[0] != '.'
    requires |cur| == 3 || !IsDigit(t[0])
    ensures !OctetFields(cur + t, m)
  {
    FieldsHead(cur, t);
    var f := Fields(cur + t)[0];
    assert |f| > |cur| && f[|cur|] == t[0];
    assert !IsOctet(f);
  }

  /** One more digit of the open field: the value grows by that digit. */
  lemma ScanDigitStep(cur: string, t: string, groups: nat)
    requires groups <= 3 && AllDigits(cur) && |cur| < 3 && t != [] && IsDigit(t[0])
    requires Scan(t[1..], groups, |cur + [t[0]]|, Value(cur + [t[0]])) == QuadRest((cur + [t[0]]) + t[1..], groups)
    ensures Scan(t, groups, |cur|, Value(cur)) == QuadRest(cur + t, groups)
  {
    ValueSnoc(cur, t[0]);
    assert cur + t == (cur + [t[0]]) + t[1..];
  }

  /** A dot closes the open field: it must be an octet, and the rest holds one field fewer. */
  lemma ScanDotStep(cur: string, t: string, groups: nat)
    requires groups <= 3 && AllDigits(cur) && |cur| <= 3 && t != [] && t[0] == '.'
    requires groups < 3 ==> Scan(t[1..], groups + 1, 0, 0) == QuadRest(t[1..], groups + 1)
    ensures Scan(t, groups, |cur|, Value(cur)) == QuadRest(cur + t, groups)
  {
    assert NoDot(cur);
    assert cur + t == cur + ['.'] + t[1..];
    if groups < 3 {
      OctetFieldsAfterDot(cur, t[1..], 3 - groups);
    } else {
      OctetFieldsAfterDot(cur, t[1..], 0);
    }
  }

  lemma {:induction false} ScanCorrect(cur: string, t: string, groups: nat)
    requires groups <= 3 && AllDigits(cur) && |cur| <= 3
    ensures Scan(t, groups, |cur|, Value(cur)) == QuadRest(cur + t, groups)
    decreases |t|
  {
    assert NoDot(cur);
    if t == [] {
      assert cur + t == cur;
      OctetFieldsOfDotFree(cur, 4 - groups);
    } else if IsDigit(t[0]) && |cur| < 3 {
      ScanCorrect(cur + [t[0]], t[1..], groups);
      ScanDigitStep(cur, t, groups);
    } else if t[0] == '.' {
      if groups < 3 {
        assert [] + t[1..] == t[1..];
        ScanCorrect([], t[1..], groups + 1);
      }
      ScanDotStep(cur, t, groups);
    } else {
      BadFirstField(cur, t, 4 - groups);
    }
  }

  /** `ipRegex.test(ip)`, computed by one left-to-right pass. */
  function ValidateIp(s: string): (r: bool)
    ensures r <==> IsDottedQuad(s)
  {
    ScanCorrect([], s, 0);
    assert [] + s == s;
    Scan(s, 0, 0, 0)
  }

  /** The recogniser accepts exactly what the regular expression matches. */
  lemma ValidateIpMatchesRegex(s: string)
    ensures ValidateIp(s) <==> MatchesIpRegex(s)
  {
    RegexMatchesDottedQuad(s);
  }

  // ----- Consequences -----

  lemma {:induction false} ScanCharset(t: string, groups: nat, len: nat, val: nat)
    requires Scan(t, groups, len, val)
    ensures forall k | 0 <= k < |t| :: IsDigit(t[k]) || t[k] == '.'
    decreases |t|
  {
    if t != [] {
      if IsDigit(t[0]) {
        ScanCharset(t[1..], groups, len + 1, val * 10 + DigitValue(t[0]));
      } else {
        ScanCharset(t[1..], groups + 1, 0, 0);
      }
      assert forall k | 1 <= k < |t| :: t[k] == t[1..][k - 1];
    }
  }

  /** An accepted string holds nothing but digits and dots, so no whitespace anywhere. */
  lemma AcceptedCharacters(s: string)
    requires ValidateIp(s)
    ensures forall k | 0 <= k < |s| :: IsDigit(s[k]) || s[k] == '.'
    ensures |s| > 0
  {
    ScanCharset(s, 0, 0, 0);
  }

  /** Dot-free fields joined with dots are accepted exactly when they are four octets. */
  lemma ValidateJoined(fs: seq<string>)
    requires |fs| >= 1 && forall k | 0 <= k < |fs| :: NoDot(fs[k])
    ensures ValidateIp(JoinDots(fs)) <==> |fs| == 4 && forall k | 0 <= k < 4 :: IsOctet(fs[k])
  {
    FieldsOfJoin(fs);
  }

  /** Four numbers written in decimal and joined with dots. */
  function FormatQuad(a: nat, b: nat, c: nat, d: nat): string {
    JoinDots([Digits(a), Digits(b), Digits(c), Digits(d)])
  }

  /** Every address written in the usual form is accepted, and nothing with a part above 255. */
  lemma FormattedQuadAccepted(a: nat, b: nat, c: nat, d: nat)
    ensures ValidateIp(FormatQuad(a, b, c, d)) <==> a <= 255 && b <= 255 && c <= 255 && d <= 255
  {
    var fs := [Digits(a), Digits(b), Digits(c), Digits(d)];
    forall n | 0 <= n < 4 ensures NoDot(fs[n]) {
      assert AllDigits(fs[n]);
    }
    ValidateJoined(fs);
    assert IsOctet(fs[0]) <==> a <= 255;
    assert IsOctet(fs[1]) <==> b <= 255;
    assert IsOctet(fs[2]) <==> c <= 255;
    assert IsOctet(fs[3]) <==> d <= 255;
  }

  /** `ValidateIp` on four literal fields joined with dots. */
  lemma ValidateFour(g0: string, g1: string, g2: string, g3: string)
    requires NoDot(g0) && NoDot(g1) && NoDot(g2) && NoDot(g3)
    ensures ValidateIp(g0 + "." + g1 + "." + g2 + "." + g3) <==>
      IsOctet(g0) && IsOctet(g1) && IsOctet(g2) && IsOctet(g3)
  {
    var fs := [g0, g1, g2, g3];
    JoinDotsFour(fs);
    ValidateJoined(fs);
  }

  lemma AcceptsAllTwoFiftyFive()
    ensures ValidateIp("255.255.255.255")
  {
    Value3("255");
    assert IsOctet("255");
    assert "255" + "." + "255" + "." + "255" + "." + "255" == "255.255.255.255";
    ValidateFour("255", "255", "255", "255");
  }

  lemma AcceptsAllOnes()
    ensures ValidateIp("1.1.1.1")
  {
    assert IsOctet("1");
    assert "1" + "." + "1" + "." + "1" + "." + "1" == "1.1.1.1";
    ValidateFour("1", "1", "1", "1");
  }

  /** Leading zeros are accepted as long as a field has at most three digits. */
  lemma AcceptsLeadingZeros()
    ensures ValidateIp("001.02.0.099")
  {
    Value3("001");
    Value3("099");
    assert Value("02") == 2;
    assert IsOctet("001") && IsOctet("02") && IsOctet("0") && IsOctet("099");
    assert "001" + "." + "02" + "." + "0" + "." + "099" == "001.02.0.099";
    ValidateFour("001", "02", "0", "099");
  }

  /** A fourth digit is too many, even a leading zero. */
  lemma RejectsFourDigitField()
    ensures !ValidateIp("0001.2.3.4")
  {
    ValidateFour("0001", "2", "3", "4");
  }

  lemma RejectsBoundaryExamples()
    ensures !ValidateIp("256.1.1.1")
    ensures !ValidateIp("1.1.1.1234")
    ensures !ValidateIp("1..1.1")
  {
    ValidateFour("256", "1", "1", "1");
    ValidateFour("1", "1", "1", "1234");
    ValidateFour("1", "", "1", "1");
  }

  /** Three fields are rejected. */
  lemma RejectsThreeFields()
    ensures !ValidateIp("1.1.1")
  {
    ValidateJoined(["1", "1", "1"]);
    assert JoinDots(["1", "1", "1"]) == "1.1.1" by {
      assert ["1", "1", "1"][1..] == ["1", "1"];
      assert ["1", "1"][1..] == ["1"];
    }
  }

  /** Five fields are rejected. */
  lemma RejectsFiveFields()
    ensures !ValidateIp("1.1.1.1.1")
  {
    ValidateJoined(["1", "1", "1", "1", "1"]);
    assert JoinDots(["1", "1", "1", "1", "1"]) == "1.1.1.1.1" by {
      assert ["1", "1", "1", "1", "1"][1..] == ["1", "1", "1", "1"];
      JoinDotsFour(["1", "1", "1", "1"]);
    }
  }
}
