/**
 * The RAPL domain names of the COOLR reader: long forms `package-N[/sub]`,
 * short forms `pN[/sub]`, the regular-expression based conversions between
 * them, and the two `str` methods the reader applies to keys
 * (`replace` and `find`).
 */
module RaplNames {
  import opened Wrappers

  const LongPrefix: string := "package-"
  const ShortPrefix: string := "p"

  /** `\d` restricted to ASCII digits. */
  predicate IsDigit(c: char) {
    '0' <= c <= '9'
  }

  /** `\s`: the characters Python's `str.isspace` accepts. */
  predicate IsSpace(c: char) {
    || c == ' ' || '\t' <= c <= '\r' || '\U{1c}' <= c <= '\U{1f}'
    || c == '\U{85}' || c == '\U{a0}' || c == '\U{1680}' || '\U{2000}' <= c <= '\U{200a}'
    || c == '\U{2028}' || c == '\U{2029}' || c == '\U{202f}' || c == '\U{205f}' || c == '\U{3000}'
  }

  predicate NotSpace(c: char) {
    !IsSpace(c)
  }

  predicate NotDigit(c: char) {
    !IsDigit(c)
  }

  /** The length of the longest prefix of `s` whose characters all satisfy `p`: a greedy `[p]*`. */
  function Span(s: string, p: char -> bool): (n: nat)
    ensures n <= |s|
    ensures forall i :: 0 <= i < n ==> p(s[i])
    ensures n < |s| ==> !p(s[n])
  {
    if |s| == 0 || !p(s[0]) then 0 else 1 + Span(s[1..], p)
  }

  /** A greedy span stops exactly where the run of matching characters ends. */
  lemma {:induction false} SpanOfRun(a: string, b: string, p: char -> bool)
    requires forall i :: 0 <= i < |a| ==> p(a[i])
    requires |b| > 0 ==> !p(b[0])
    ensures Span(a + b, p) == |a|
  {
    if |a| == 0 {
      assert a + b == b;
    } else {
      assert (a + b)[0] == a[0];
      assert (a + b)[1..] == a[1..] + b;
      SpanOfRun(a[1..], b, p);
    }
  }

  /** `int(ds)` for a string of ASCII digits. */
  function DecimalValue(ds: string): nat
    requires forall i :: 0 <= i < |ds| ==> IsDigit(ds[i])
  {
    if |ds| == 0 then 0
    else
      assert IsDigit(ds[|ds| - 1]);
      DecimalValue(ds[..|ds| - 1]) * 10 + (ds[|ds| - 1] as int - '0' as int)
  }

  /** `'%d' % n` for a natural number: decimal digits, no leading zero. */
  function NatToDecimal(n: nat): (ds: string)
    ensures |ds| > 0 && forall i :: 0 <= i < |ds| ==> IsDigit(ds[i])
    ensures n > 0 ==> ds[0] != '0'
  {
    if n < 10 then ['0' + n as char] else NatToDecimal(n / 10) + ['0' + (n % 10) as char]
  }

  /** Formatting and then parsing a number gives it back. */
  lemma {:induction false} DecimalRoundTrip(n: nat)
    ensures DecimalValue(NatToDecimal(n)) == n
  {
    var ds := NatToDecimal(n);
    if n >= 10 {
      DecimalRoundTrip(n / 10);
      assert ds[..|ds| - 1] == NatToDecimal(n / 10);
    }
  }

  /** The groups of a successful match: the digits and the optional `/...` tail ("" when absent). */
  datatype DomainMatch = DomainMatch(digits: string, tail: string)

  /**
   * `re.match(prefix + r'(\d+)(/[tail]+)?', n)`: anchored at the start only,
   * both groups greedy; the tail group needs at least one character after '/'.
   */
  function MatchDomain(n: string, prefix: string, tailChar: char -> bool): (m: Option<DomainMatch>)
    ensures m.Some? ==> prefix <= n && |m.value.digits| > 0
    ensures m.Some? ==> forall i :: 0 <= i < |m.value.digits| ==> IsDigit(m.value.digits[i])
    ensures m.Some? ==> m.value.tail == "" || (m.value.tail[0] == '/' && |m.value.tail| > 1)
    ensures m.Some? ==> prefix + m.value.digits + m.value.tail <= n
  {
    if !(prefix <= n) then None
    else
      var rest := n[|prefix|..];
      var d := Span(rest, IsDigit);
      if d == 0 then None
      else
        var after := rest[d..];
        assert n == prefix + rest[..d] + after;
        Some(DomainMatch(rest[..d], TailGroup(after, tailChar)))
  }

  /** The optional group `(/[tail]+)?` at the start of `after`: "" when it does not match. */
  function TailGroup(after: string, tailChar: char -> bool): (g: string)
    ensures g <= after
    ensures g == "" || (g[0] == '/' && |g| > 1)
  {
    var t := if |after| > 0 && after[0] == '/' then Span(after[1..], tailChar) else 0;
    if t > 0 then after[..t + 1] else ""
  }

  /** `re_domain_long = 'package-(\d+)(/\S+)?'` */
  function MatchLong(n: string): (m: Option<DomainMatch>)
    ensures m.Some? <==> LongPrefix <= n && |n| > |LongPrefix| && IsDigit(n[|LongPrefix|])
  {
    MatchDomain(n, LongPrefix, NotSpace)
  }

  /** `re_domain_short = 'p(\d+)(/\D+)?'` */
  function MatchShort(n: string): (m: Option<DomainMatch>)
    ensures m.Some? <==> ShortPrefix <= n && |n| > |ShortPrefix| && IsDigit(n[|ShortPrefix|])
  {
    MatchDomain(n, ShortPrefix, NotDigit)
  }

  /**
   * to_shortdn: `p` followed by the package number as an integer and the
   * tail; a name the long pattern does not match is returned unchanged.
   */
  function ToShortDn(n: string): (s: string)
    ensures MatchLong(n).None? ==> s == n
    ensures MatchLong(n).Some? ==> ShortPrefix <= s
  {
    match MatchLong(n)
    case None => n
    case Some(m) => ShortPrefix + NatToDecimal(DecimalValue(m.digits)) + m.tail
  }

  /**
   * to_longdn: `package-` followed by the package number as an integer and
   * the tail; a name the short pattern does not match is returned unchanged.
   */
  function ToLongDn(n: string): (l: string)
    ensures MatchShort(n).None? ==> l == n
    ensures MatchShort(n).Some? ==> LongPrefix <= l
  {
    match MatchShort(n)
    case None => n
    case Some(m) => LongPrefix + NatToDecimal(DecimalValue(m.digits)) + m.tail
  }

  /** A subdomain name of the canonical forms: no whitespace and no digit. */
  predicate SubdomainOk(sub: string) {
    forall i :: 0 <= i < |sub| ==> !IsSpace(sub[i]) && !IsDigit(sub[i])
  }

  function Suffix(sub: string): string {
    if sub == "" then "" else "/" + sub
  }

  /** `package-N` or `package-N/sub` */
  function LongName(pkg: nat, sub: string): string {
    LongPrefix + NatToDecimal(pkg) + Suffix(sub)
  }

  /** `pN` or `pN/sub` */
  function ShortName(pkg: nat, sub: string): string {
    ShortPrefix + NatToDecimal(pkg) + Suffix(sub)
  }

  /** A prefix and a maximal run of digits are matched as the first group. */
  lemma MatchOfDigits(prefix: string, ds: string, after: string, tailChar: char -> bool)
    requires |ds| > 0 && forall i :: 0 <= i < |ds| ==> IsDigit(ds[i])
    requires |after| > 0 ==> !IsDigit(after[0])
    ensures MatchDomain(prefix + ds + after, prefix, tailChar) == Some(DomainMatch(ds, TailGroup(after, tailChar)))
  {
    var n := prefix + ds + after;
    assert prefix <= n;
    var rest := n[|prefix|..];
    assert rest == ds + after;
    SpanOfRun(ds, after, IsDigit);
    assert rest[..|ds|] == ds;
    assert rest[|ds|..] == after;
  }

  /** A subdomain of matching characters is matched whole as the tail group. */
  lemma TailOfSuffix(sub: string, tailChar: char -> bool)
    requires forall i :: 0 <= i < |sub| ==> tailChar(sub[i])
    ensures TailGroup(Suffix(sub), tailChar) == Suffix(sub)
  {
    if sub != "" {
      var after := Suffix(sub);
      assert after[1..] == sub + "";
      SpanOfRun(sub, "", tailChar);
      assert after[..|sub| + 1] == after;
    }
  }

  /** A prefix, a run of digits and an optional subdomain are matched group by group. */
  lemma MatchOfName(ds: string, sub: string, prefix: string, tailChar: char -> bool)
    requires |ds| > 0 && forall i :: 0 <= i < |ds| ==> IsDigit(ds[i])
    requires forall i :: 0 <= i < |sub| ==> tailChar(sub[i])
    ensures MatchDomain(prefix + ds + Suffix(sub), prefix, tailChar) == Some(DomainMatch(ds, Suffix(sub)))
  {
    MatchOfDigits(prefix, ds, Suffix(sub), tailChar);
    TailOfSuffix(sub, tailChar);
  }

  /** A canonical long name shortens to the short name with the same number and subdomain. */
  lemma LongToShort(pkg: nat, sub: string)
    requires SubdomainOk(sub)
    ensures ToShortDn(LongName(pkg, sub)) == ShortName(pkg, sub)
  {
    DecimalRoundTrip(pkg);
    MatchOfName(NatToDecimal(pkg), sub, LongPrefix, NotSpace);
  }

  /** A canonical short name lengthens to the long name with the same number and subdomain. */
  lemma ShortToLong(pkg: nat, sub: string)
    requires SubdomainOk(sub)
    ensures ToLongDn(ShortName(pkg, sub)) == LongName(pkg, sub)
  {
    DecimalRoundTrip(pkg);
    MatchOfName(NatToDecimal(pkg), sub, ShortPrefix, NotDigit);
  }

  /** A short name does not match the long pattern, so to_shortdn leaves it as it is. */
  lemma ShortStaysShort(pkg: nat, sub: string)
    ensures ToShortDn(ShortName(pkg, sub)) == ShortName(pkg, sub)
  {
    assert ShortName(pkg, sub)[1] == NatToDecimal(pkg)[0];
    assert !(LongPrefix <= ShortName(pkg, sub));
  }

  /** A long name has no digit after its "p", so to_longdn leaves it as it is. */
  lemma LongStaysLong(pkg: nat, sub: string)
    ensures ToLongDn(LongName(pkg, sub)) == LongName(pkg, sub)
  {
    assert LongName(pkg, sub)[1] == 'a';
    assert Span(LongName(pkg, sub)[1..], IsDigit) == 0;
  }

  /**
   * The conversions are inverse on canonical names: a long name converts to
   * the short name with the same number and subdomain and back, and a name
   * already in the target form is left as it is.
   */
  lemma LongShortRoundTrip(pkg: nat, sub: string)
    requires SubdomainOk(sub)
    ensures ToShortDn(LongName(pkg, sub)) == ShortName(pkg, sub)
    ensures ToLongDn(ShortName(pkg, sub)) == LongName(pkg, sub)
    ensures ToShortDn(ShortName(pkg, sub)) == ShortName(pkg, sub)
    ensures ToLongDn(LongName(pkg, sub)) == LongName(pkg, sub)
  {
    LongToShort(pkg, sub);
    ShortToLong(pkg, sub);
    ShortStaysShort(pkg, sub);
    LongStaysLong(pkg, sub);
  }

  /** A one-digit canonical long name survives the round trip. */
  lemma CanonicalRoundTrip(pkg: nat, sub: string, ln: string)
    requires pkg < 10 && SubdomainOk(sub) && ln == LongPrefix + ['0' + pkg as char] + Suffix(sub)
    ensures ToLongDn(ToShortDn(ln)) == ln
  {
    assert NatToDecimal(pkg) == ['0' + pkg as char];
    LongShortRoundTrip(pkg, sub);
  }

  /** The first name of test_conv survives the round trip. */
  lemma TestConvPackage()
    ensures ToLongDn(ToShortDn("package-1")) == "package-1"
  {
    CanonicalRoundTrip(1, "", "package-1");
  }

  /** The second name of test_conv survives the round trip. */
  lemma TestConvDram()
    ensures ToLongDn(ToShortDn("package-3/dram")) == "package-3/dram"
  {
    CanonicalRoundTrip(3, "dram", "package-3/dram");
  }

  /** The third name of test_conv survives the round trip. */
  lemma TestConvCore()
    ensures ToLongDn(ToShortDn("package-2/core")) == "package-2/core"
  {
    CanonicalRoundTrip(2, "core", "package-2/core");
  }

  /** A package number with a leading zero does not come back as written: `int()` drops the zero. */
  lemma LeadingZeroNormalised()
    ensures ToShortDn("package-01") == "p1"
    ensures ToLongDn(ToShortDn("package-01")) == "package-1"
  {
    MatchOfDigits(LongPrefix, "01", "", NotSpace);
    assert "package-01" == LongPrefix + "01" + "";
    assert "01"[..1] == "0";
    assert DecimalValue("01") == 1;
    assert NatToDecimal(1) == "1";
    assert ToShortDn("package-01") == "p1";
    CanonicalRoundTrip(1, "", "package-1");
    LongShortRoundTrip(1, "");
    assert ShortName(1, "") == "p1";
  }

  /** `s.replace(pat, rep)` for a non-empty `pat`: leftmost, non-overlapping occurrences. */
  function ReplaceAll(s: string, pat: string, rep: string): (r: string)
    requires |pat| > 0
    ensures pat <= s ==> rep <= r
    ensures |rep| <= |pat| ==> |r| <= |s|
    decreases |s|
  {
    if |s| == 0 then ""
    else if pat <= s then rep + ReplaceAll(s[|pat|..], pat, rep)
    else [s[0]] + ReplaceAll(s[1..], pat, rep)
  }

  /** Without an occurrence, `replace` changes nothing. */
  lemma {:induction false} ReplaceAllAbsent(s: string, pat: string, rep: string)
    requires |pat| > 0
    requires forall i :: 0 <= i <= |s| ==> !(pat <= s[i..])
    ensures ReplaceAll(s, pat, rep) == s
    decreases |s|
  {
    if |s| > 0 {
      assert !(pat <= s[0..]) && s[0..] == s;
      forall i | 0 <= i <= |s| - 1
        ensures !(pat <= s[1..][i..])
      {
        assert s[1..][i..] == s[i + 1..];
      }
      ReplaceAllAbsent(s[1..], pat, rep);
    }
  }

  /** shortenkey: every `package-` becomes `p`. */
  function ShortenKey(s: string): (k: string)
    ensures LongPrefix <= s ==> ShortPrefix <= k
    ensures |k| <= |s|
  {
    ReplaceAll(s, LongPrefix, ShortPrefix)
  }

  /** After the one leading `package-`, a key without '-' has nothing left for shortenkey to replace. */
  lemma {:induction false} ShortenKeyOfLong(body: string)
    requires '-' !in body
    ensures ShortenKey(LongPrefix + body) == ShortPrefix + body
  {
    forall i | 0 <= i <= |body|
      ensures !(LongPrefix <= body[i..])
    {
      if i + |LongPrefix| <= |body| {
        assert body[i + 7] != LongPrefix[7];
      }
    }
    ReplaceAllAbsent(body, LongPrefix, ShortPrefix);
    assert (LongPrefix + body)[|LongPrefix|..] == body;
  }

  /** Digits followed by a dash-free subdomain contain no '-'. */
  lemma NoDashAfterPrefix(ds: string, sub: string)
    requires forall i :: 0 <= i < |ds| ==> IsDigit(ds[i])
    requires '-' !in sub
    ensures '-' !in ds + Suffix(sub)
  {
    var body := ds + Suffix(sub);
    forall i | 0 <= i < |body|
      ensures body[i] != '-'
    {
      if i < |ds| {
        assert body[i] == ds[i];
      } else if i > |ds| {
        assert body[i] == sub[i - |ds| - 1];
      }
    }
  }

  /** shortenkey turns a canonical long name whose subdomain has no '-' into its short name. */
  lemma ShortenKeyOfLongName(pkg: nat, sub: string)
    requires '-' !in sub
    ensures ShortenKey(LongName(pkg, sub)) == ShortName(pkg, sub)
  {
    var ds := NatToDecimal(pkg);
    NoDashAfterPrefix(ds, sub);
    assert LongName(pkg, sub) == LongPrefix + (ds + Suffix(sub));
    assert ShortName(pkg, sub) == ShortPrefix + (ds + Suffix(sub));
    ShortenKeyOfLong(ds + Suffix(sub));
  }

  /** On canonical long names without '-' in the subdomain, shortenkey agrees with to_shortdn. */
  lemma ShortenKeyIsToShortDn(pkg: nat, sub: string)
    requires SubdomainOk(sub) && '-' !in sub
    ensures ShortenKey(LongName(pkg, sub)) == ShortName(pkg, sub) == ToShortDn(LongName(pkg, sub))
  {
    ShortenKeyOfLongName(pkg, sub);
    LongToShort(pkg, sub);
  }

  /** `sub` occurs in `s` at index `j`. */
  predicate OccursAt(s: string, sub: string, j: nat) {
    j + |sub| <= |s| && s[j..j + |sub|] == sub
  }

  /** `s.find(sub)` from index `from`: the lowest occurrence at or after it, -1 when there is none. */
  function FindFrom(s: string, sub: string, from: nat): (r: int)
    ensures r == -1 || (from <= r && OccursAt(s, sub, r))
    ensures r == -1 ==> forall j: nat :: from <= j ==> !OccursAt(s, sub, j)
    ensures r != -1 ==> forall j: nat :: from <= j < r ==> !OccursAt(s, sub, j)
    decreases |s| + 1 - from
  {
    if from + |sub| > |s| then -1
    else if OccursAt(s, sub, from) then from
    else FindFrom(s, sub, from + 1)
  }

  /** `s.find(sub)` */
  function Find(s: string, sub: string): (r: int)
    ensures r == -1 <==> forall j: nat :: !OccursAt(s, sub, j)
    ensures r != -1 ==> r >= 0 && OccursAt(s, sub, r) && forall j: nat :: j < r ==> !OccursAt(s, sub, j)
  {
    FindFrom(s, sub, 0)
  }

  /** A string lacking one of the characters of `sub` does not contain it. */
  lemma FindMissingChar(s: string, sub: string, i: nat)
    requires i < |sub| && sub[i] !in s
    ensures Find(s, sub) == -1
  {

  }

  /**
   * `sub` is first found right after `pre` when no earlier start is possible:
   * its second character is not in `pre`, and `pre` does not end with its first.
   */
  lemma FirstOccurrence(pre: string, sub: string)
    requires |sub| >= 2 && sub[1] !in pre && (|pre| > 0 ==> pre[|pre| - 1] != sub[0])
    ensures Find(pre + sub, sub) == |pre|
  {
    var s := pre + sub;
    assert s[|pre|..|pre| + |sub|] == sub;
    forall j: nat | j < |pre|
      ensures !OccursAt(s, sub, j)
    {
      if j + 1 < |pre| {
        assert s[j + 1] == pre[j + 1];
        assert s[j..j + |sub|][1] == s[j + 1];
      } else {
        assert s[j] == pre[j];
        assert s[j..j + |sub|][0] == s[j];
      }
    }
    assert OccursAt(s, sub, |pre|);
    var r := Find(s, sub);
    assert r != -1;
    assert !(r < |pre|) && !(r > |pre|);
  }

  /** A proof step of CoreFilter: "core" is found in "package-0/core" at its subdomain. */
  lemma CoreHasCore()
    ensures Find("package-0/core", "core") == 10
  {
    assert "package-0/" + "core" == "package-0/core";
    FirstOccurrence("package-0/", "core");
  }

  /** A proof step of CoreFilter: "core" is also found in "package-0/uncore". */
  lemma UncoreHasCore()
    ensures Find("package-0/uncore", "core") == 12
  {
    assert "package-0/un" + "core" == "package-0/uncore";
    FirstOccurrence("package-0/un", "core");
  }

  /** The total of `sample` leaves out every domain whose name contains "core", which includes "uncore". */
  lemma CoreFilter()
    ensures Find("package-0", "core") == -1
    ensures Find("package-0/dram", "core") == -1
    ensures Find("package-0/core", "core") == 10
    ensures Find("package-0/uncore", "core") == 12
  {
    // neither name has an "o"
    FindMissingChar("package-0", "core", 1);
    FindMissingChar("package-0/dram", "core", 1);
    CoreHasCore();
    UncoreHasCore();
  }
}
