/**
 * `analyze_url_syntax`: a risk score for a URL from its text alone. Each check
 * adds a fixed amount and one flag; the score is not capped here.
 */
module LinkSyntax {
  import opened Wrappers
  import opened Strings
  import opened LinkTypes

  const SuspiciousTlds: seq<string> :=
    [".xyz", ".top", ".click", ".loan", ".work", ".date", ".racing", ".download", ".gdn", ".win", ".bid", ".trade"]

  const UrlShorteners: seq<string> :=
    ["bit.ly", "tinyurl.com", "t.co", "goo.gl", "ow.ly", "is.gd", "buff.ly", "cutt.ly", "rb.gy", "shorturl.at"]

  /** A brand and the look-alike tokens that betray an impersonation of it. */
  datatype Brand = Brand(name: string, fakes: seq<string>)

  /** `TARGETED_BRANDS`, in the dictionary's insertion order. */
  const TargetedBrands: seq<Brand> := [
    Brand("paypal", ["paypa1", "paypai", "paypaI", "paipal", "paypall", "pay-pal"]),
    Brand("apple", ["app1e", "appie", "applе", "apple-id", "icloud-verify"]),
    Brand("microsoft", ["micros0ft", "microsft", "ms-login", "outlook-verify"]),
    Brand("google", ["g00gle", "googie", "google-verify", "gmail-secure"]),
    Brand("amazon", ["amaz0n", "amazn", "amazon-prime"]),
    Brand("الراجحي", ["alrajhi-bank", "rajhi-secure", "alrajhi-update", "rajhi-verify"]),
    Brand("الأهلي", ["alahli-bank", "ahli-secure", "snb-update", "alahli-verify"]),
    Brand("stc", ["stc-pay", "stc-reward", "mystc-update", "stc-verify"]),
    Brand("الإنماء", ["alinma-bank", "inma-secure"]),
    Brand("البلاد", ["albilad-bank", "bilad-secure"])
  ]

  /** The three tables the analyzer consults; the source's own are `SourceTables`. */
  datatype Tables = Tables(tlds: seq<string>, shorteners: seq<string>, brands: seq<Brand>)

  const SourceTables: Tables := Tables(SuspiciousTlds, UrlShorteners, TargetedBrands)

  /** The first index at or after `from` of a TLD of `tlds` that `domain` ends with. */
  function FirstTld(tlds: seq<string>, domain: string, from: nat): (r: Option<nat>)
    ensures r.Some? ==>
      && from <= r.value < |tlds|
      && EndsWith(domain, tlds[r.value])
      && forall j :: from <= j < r.value ==> !EndsWith(domain, tlds[j])
    ensures r.None? ==> forall j :: from <= j < |tlds| ==> !EndsWith(domain, tlds[j])
    decreases |tlds| - from
  {
    if from >= |tlds| then None
    else if EndsWith(domain, tlds[from]) then Some(from)
    else FirstTld(tlds, domain, from + 1)
  }

  /** Some look-alike token of brand `b` occurs in `domain`. */
  predicate BrandHit(b: Brand, domain: string) {
    AnyContains(domain, b.fakes)
  }

  /** The names of the brands of `t` that `domain` impersonates, in table order. */
  function MatchingBrands(t: seq<Brand>, domain: string): seq<string>
    decreases |t|
  {
    if t == [] then []
    else
      var last := t[|t| - 1];
      MatchingBrands(t[..|t| - 1], domain) + (if BrandHit(last, domain) then [last.name] else [])
  }

  /**
   * No brand is reported exactly when none has a look-alike in the domain;
   * otherwise the last one reported hits and no later brand does.
   */
  lemma MatchingBrandsMeaning(t: seq<Brand>, domain: string)
    ensures var r := MatchingBrands(t, domain);
      && (r == [] <==> forall j :: 0 <= j < |t| ==> !BrandHit(t[j], domain))
      && (r != [] ==> exists j :: 0 <= j < |t| && BrandHit(t[j], domain) && t[j].name == r[|r| - 1]
                                  && forall i :: j < i < |t| ==> !BrandHit(t[i], domain))
  {
    MatchingBrandsNone(t, domain);
    if MatchingBrands(t, domain) != [] {
      MatchingBrandsLast(t, domain);
    }
  }

  lemma MatchingBrandsNone(t: seq<Brand>, domain: string)
    ensures MatchingBrands(t, domain) == [] <==> forall j :: 0 <= j < |t| ==> !BrandHit(t[j], domain)
  {
    MatchingBrandsCount(t, domain);
    if exists j :: 0 <= j < |t| && BrandHit(t[j], domain) {
      var j :| 0 <= j < |t| && BrandHit(t[j], domain);
      assert j in HitSet(t, domain);
    } else {
      assert HitSet(t, domain) == {};
    }
  }

  lemma {:induction false} MatchingBrandsLast(t: seq<Brand>, domain: string)
    requires MatchingBrands(t, domain) != []
    ensures var r := MatchingBrands(t, domain);
      exists j :: 0 <= j < |t| && BrandHit(t[j], domain) && t[j].name == r[|r| - 1]
                  && forall i :: j < i < |t| ==> !BrandHit(t[i], domain)
    decreases |t|
  {
    var n := |t| - 1;
    var init := t[..n];
    if BrandHit(t[n], domain) {
      assert t[n].name == MatchingBrands(t, domain)[|MatchingBrands(t, domain)| - 1];
    } else {
      assert MatchingBrands(t, domain) == MatchingBrands(init, domain);
      MatchingBrandsLast(init, domain);
      var r := MatchingBrands(init, domain);
      var j :| 0 <= j < |init| && BrandHit(init[j], domain) && init[j].name == r[|r| - 1]
               && forall i :: j < i < |init| ==> !BrandHit(init[i], domain);
      assert init[j] == t[j];
      forall i | j < i < |t|
        ensures !BrandHit(t[i], domain)
      {
        if i < n {
          assert init[i] == t[i];
        }
      }
    }
  }

  /** The number of leading ASCII digits of `s`. */
  function LeadingDigits(s: string): (n: nat)
    ensures n <= |s|
    decreases |s|
  {
    if |s| > 0 && IsDigit(s[0]) then 1 + LeadingDigits(s[1..]) else 0
  }

  /** One to three digits followed by a dot, at the start of `s`. */
  predicate OctetDot(s: string) {
    var n := LeadingDigits(s);
    1 <= n <= 3 && n < |s| && s[n] == '.'
  }

  /** `groups` octets, each with its dot, then at least one digit, at the start of `s`. */
  predicate OctetsThenDigit(s: string, groups: nat)
    decreases groups
  {
    if groups == 0 then |s| > 0 && IsDigit(s[0])
    else OctetDot(s) && OctetsThenDigit(s[LeadingDigits(s) + 1..], groups - 1)
  }

  /**
   * `re.match(r'\d{1,3}\.\d{1,3}\.\d{1,3}\.\d{1,3}', domain)`: three octets with
   * their dots, then at least one digit. A group of four or more digits fails,
   * because after `\d{1,3}` the pattern needs a dot.
   */
  predicate DottedQuadPrefix(domain: string) {
    OctetsThenDigit(domain, 3)
  }

  function TldFlags(tlds: seq<string>, tld: Option<nat>): seq<Flag>
    requires tld.Some? ==> tld.value < |tlds|
  {
    if tld.Some? then [SuspiciousTld(tlds[tld.value])] else []
  }

  function BrandFlags(names: seq<string>): (r: seq<Flag>)
    ensures |r| == |names|
  {
    seq(|names|, i requires 0 <= i < |names| => Impersonates(names[i]))
  }

  function LastName(names: seq<string>): Option<string> {
    if names == [] then None else Some(names[|names| - 1])
  }

  function FlagIf(b: bool, f: Flag): seq<Flag> {
    if b then [f] else []
  }

  /** The risk the five checks add up to. */
  function SyntaxRisk(tld: bool, short: bool, brands: nat, noHttps: bool, ip: bool): int {
    25 * Indicator(tld) + 20 * Indicator(short) + 40 * brands + 15 * Indicator(noHttps) + 30 * Indicator(ip)
  }

  /** The flags the five checks raise, in the order of the checks. */
  function SyntaxFlags(tlds: seq<string>, tld: Option<nat>, short: bool, brands: seq<string>, noHttps: bool,
                       ip: bool): seq<Flag>
    requires tld.Some? ==> tld.value < |tlds|
  {
    TldFlags(tlds, tld) + FlagIf(short, Shortened) + BrandFlags(brands) + FlagIf(noHttps, NoHttps)
      + FlagIf(ip, IpHost)
  }

  /** The verdict of the analyzer over tables `t`, given `urlparse(url).netloc` (`None`: urlparse raised). */
  function VerdictWith(t: Tables, url: string, netloc: Option<string>): SyntaxVerdict {
    match netloc
    case None => SyntaxVerdict(url, 0, [], "", false, false, None)
    case Some(n) =>
      var domain := Lower(n);
      var tld := FirstTld(t.tlds, domain, 0);
      var short := AnyContains(domain, t.shorteners);
      var brands := MatchingBrands(t.brands, domain);
      var noHttps := !StartsWith(url, "https://");
      var ip := DottedQuadPrefix(domain);
      SyntaxVerdict(url, SyntaxRisk(tld.Some?, short, |brands|, noHttps, ip),
                    SyntaxFlags(t.tlds, tld, short, brands, noHttps, ip),
                    domain, short, tld.Some?, LastName(brands))
  }

  /** The verdict `analyze_url_syntax(url)` returns. */
  function SyntaxVerdictOf(url: string, netloc: Option<string>): SyntaxVerdict {
    VerdictWith(SourceTables, url, netloc)
  }

  /** The TLD loop of `analyze_url_syntax`: the first suspicious TLD the domain ends with. */
  method CheckTld(tlds: seq<string>, domain: string) returns (found: bool, flags: seq<Flag>)
    ensures found == FirstTld(tlds, domain, 0).Some?
    ensures flags == TldFlags(tlds, FirstTld(tlds, domain, 0))
  {
    found, flags := false, [];
    var i := 0;
    while i < |tlds|
      invariant 0 <= i <= |tlds|
      invariant !found && FirstTld(tlds, domain, 0) == FirstTld(tlds, domain, i) && flags == []
    {
      if EndsWith(domain, tlds[i]) {
        found := true;
        flags := flags + [SuspiciousTld(tlds[i])];
        break;
      }
      i := i + 1;
    }
  }

  /** The shortener loop of `analyze_url_syntax`: some shortener occurs in the domain. */
  method CheckShortener(shorteners: seq<string>, domain: string) returns (found: bool)
    ensures found == AnyContains(domain, shorteners)
  {
    found := false;
    var i := 0;
    while i < |shorteners|
      invariant 0 <= i <= |shorteners|
      invariant !found
      invariant forall q :: 0 <= q < i ==> !Contains(domain, shorteners[q])
    {
      if Contains(domain, shorteners[i]) {
        found := true;
        break;
      }
      i := i + 1;
    }
  }

  /** The inner loop over one brand's look-alikes, which stops at the first hit. */
  method CheckBrand(brand: Brand, domain: string) returns (hit: bool)
    ensures hit == BrandHit(brand, domain)
  {
    hit := false;
    var k := 0;
    while k < |brand.fakes|
      invariant 0 <= k <= |brand.fakes|
      invariant !hit
      invariant forall q :: 0 <= q < k ==> !Contains(domain, brand.fakes[q])
    {
      if Contains(domain, brand.fakes[k]) {
        hit := true;
        break;
      }
      k := k + 1;
    }
  }

  /** The brand loop of `analyze_url_syntax`: +40 and one flag per impersonated brand. */
  method CheckBrands(brands: seq<Brand>, domain: string)
    returns (count: nat, flags: seq<Flag>, impersonating: Option<string>)
    ensures count == |MatchingBrands(brands, domain)|
    ensures flags == BrandFlags(MatchingBrands(brands, domain))
    ensures impersonating == LastName(MatchingBrands(brands, domain))
  {
    count, flags, impersonating := 0, [], None;
    var b := 0;
    while b < |brands|
      invariant 0 <= b <= |brands|
      invariant count == |MatchingBrands(brands[..b], domain)|
      invariant flags == BrandFlags(MatchingBrands(brands[..b], domain))
      invariant impersonating == LastName(MatchingBrands(brands[..b], domain))
    {
      var hit := CheckBrand(brands[b], domain);
      BrandStep(brands, b, domain);
      if hit {
        BrandFlagsAppend(MatchingBrands(brands[..b], domain), brands[b].name);
        impersonating := Some(brands[b].name);
        count := count + 1;
        flags := flags + [Impersonates(brands[b].name)];
      }
      b := b + 1;
    }
    assert brands[..b] == brands;
  }

  /** The brands matched in one more table entry. */
  lemma BrandStep(brands: seq<Brand>, b: nat, domain: string)
    requires b < |brands|
    ensures MatchingBrands(brands[..b + 1], domain)
      == MatchingBrands(brands[..b], domain) + (if BrandHit(brands[b], domain) then [brands[b].name] else [])
  {
    assert brands[..b + 1][..b] == brands[..b];
  }

  lemma BrandFlagsAppend(names: seq<string>, n: string)
    ensures BrandFlags(names + [n]) == BrandFlags(names) + [Impersonates(n)]
  {
  }

  /** The five checks of `analyze_url_syntax` on a lower-cased domain, in the source's order. */
  method ScoreDomain(t: Tables, url: string, domain: string)
    returns (risk: int, flags: seq<Flag>, isTld: bool, isShort: bool, impersonating: Option<string>)
    ensures var tld := FirstTld(t.tlds, domain, 0); var brands := MatchingBrands(t.brands, domain);
      var noHttps := !StartsWith(url, "https://"); var ip := DottedQuadPrefix(domain);
      && isTld == tld.Some? && isShort == AnyContains(domain, t.shorteners)
      && impersonating == LastName(brands)
      && risk == SyntaxRisk(isTld, isShort, |brands|, noHttps, ip)
      && flags == SyntaxFlags(t.tlds, tld, isShort, brands, noHttps, ip)
  {
    isTld, flags := CheckTld(t.tlds, domain);
    ghost var tld := FirstTld(t.tlds, domain, 0);
    risk := if isTld then 25 else 0;
    isShort := CheckShortener(t.shorteners, domain);
    if isShort {
      risk := risk + 20;
      flags := flags + [Shortened];
    }
    assert flags == TldFlags(t.tlds, tld) + FlagIf(isShort, Shortened);
    var brandCount, brandFlags;
    brandCount, brandFlags, impersonating := CheckBrands(t.brands, domain);
    risk := risk + 40 * brandCount;
    flags := flags + brandFlags;
    ghost var upToBrands := flags;
    var noHttps := !StartsWith(url, "https://");
    if noHttps {
      risk := risk + 15;
      flags := flags + [NoHttps];
    }
    assert flags == upToBrands + FlagIf(noHttps, NoHttps);
    ghost var upToHttps := flags;
    var ip := DottedQuadPrefix(domain);
    if ip {
      risk := risk + 30;
      flags := flags + [IpHost];
    }
    assert flags == upToHttps + FlagIf(ip, IpHost);
  }

  /** The body of `analyze_url_syntax` over tables `t`. */
  method AnalyzeWith(t: Tables, url: string, netloc: Option<string>) returns (v: SyntaxVerdict)
    ensures v == VerdictWith(t, url, netloc)
  {
    if netloc.None? {
      return SyntaxVerdict(url, 0, [], "", false, false, None);
    }
    var domain := Lower(netloc.value);
    var risk, flags, isTld, isShort, impersonating := ScoreDomain(t, url, domain);
    v := SyntaxVerdict(url, risk, flags, domain, isShort, isTld, impersonating);
    VerdictParts(t, url, netloc.value);
  }

  lemma VerdictParts(t: Tables, url: string, n: string)
    ensures var d := Lower(n); var tld := FirstTld(t.tlds, d, 0); var brands := MatchingBrands(t.brands, d);
      var short := AnyContains(d, t.shorteners); var noHttps := !StartsWith(url, "https://");
      var ip := DottedQuadPrefix(d);
      VerdictWith(t, url, Some(n))
      == SyntaxVerdict(url, SyntaxRisk(tld.Some?, short, |brands|, noHttps, ip),
                       SyntaxFlags(t.tlds, tld, short, brands, noHttps, ip), d, short, tld.Some?, LastName(brands))
  {
  }

  /** `analyze_url_syntax(url)`, given `urlparse(url).netloc` (`None`: urlparse raised). */
  method AnalyzeUrlSyntax(url: string, netloc: Option<string>) returns (v: SyntaxVerdict)
    ensures v == SyntaxVerdictOf(url, netloc)
  {
    v := AnalyzeWith(SourceTables, url, netloc);
  }

  /** The positions of the brands of `t` that `domain` impersonates. */
  ghost function HitSet(t: seq<Brand>, domain: string): set<int> {
    set j | 0 <= j < |t| && BrandHit(t[j], domain)
  }

  lemma HitSetStep(t: seq<Brand>, domain: string)
    requires t != []
    ensures var n := |t| - 1;
      HitSet(t, domain) == HitSet(t[..n], domain) + (if BrandHit(t[n], domain) then {n} else {})
      && n !in HitSet(t[..n], domain)
  {
    var n := |t| - 1;
    assert forall j :: 0 <= j < n ==> t[..n][j] == t[j];
  }

  lemma {:induction false} MatchingBrandsCount(t: seq<Brand>, domain: string)
    ensures |MatchingBrands(t, domain)| == |HitSet(t, domain)|
    decreases |t|
  {
    if t != [] {
      var init := t[..|t| - 1];
      MatchingBrandsCount(init, domain);
      HitSetStep(t, domain);
    }
  }

  /**
   * The syntax risk is exactly the sum of the five contributions (the brand
   * term counts the table's brands with a look-alike in the domain), each
   * contribution adds exactly one flag, and nothing caps the total.
   */
  lemma SyntaxRiskIsAdditive(t: Tables, url: string, n: string)
    ensures var v := VerdictWith(t, url, Some(n));
      var d := Lower(n);
      var tld := exists i :: 0 <= i < |t.tlds| && EndsWith(d, t.tlds[i]);
      var short := AnyContains(d, t.shorteners);
      var brands := |set j | 0 <= j < |t.brands| && BrandHit(t.brands[j], d)|;
      var noHttps := !StartsWith(url, "https://");
      var ip := DottedQuadPrefix(d);
      && v.riskScore == 25 * Indicator(tld) + 20 * Indicator(short) + 40 * brands
                        + 15 * Indicator(noHttps) + 30 * Indicator(ip)
      && |v.flags| == Indicator(tld) + Indicator(short) + brands + Indicator(noHttps) + Indicator(ip)
      && v.isSuspiciousTld == tld && v.isShortened == short
  {
    MatchingBrandsCount(t.brands, Lower(n));
  }

  predicate NoTldFlag(f: seq<Flag>) {
    forall k :: 0 <= k < |f| ==> !f[k].SuspiciousTld?
  }

  lemma NoTldFlagAppend(a: seq<Flag>, b: seq<Flag>)
    requires NoTldFlag(a) && NoTldFlag(b)
    ensures NoTldFlag(a + b)
  {
    forall k | 0 <= k < |a + b| ensures !(a + b)[k].SuspiciousTld? {
      if k >= |a| {
        assert (a + b)[k] == b[k - |a|];
      }
    }
  }

  lemma Regroup(t: seq<Flag>, a: seq<Flag>, b: seq<Flag>, c: seq<Flag>, d: seq<Flag>)
    ensures t + a + b + c + d == t + (a + b + c + d)
  {
  }

  /** After at most one leading flag, a tail without TLD flags leaves the leading one as the only candidate. */
  lemma TldFlagOnlyFirst(first: seq<Flag>, rest: seq<Flag>)
    requires |first| <= 1 && NoTldFlag(rest)
    ensures forall i :: 0 <= i < |first + rest| && (first + rest)[i].SuspiciousTld? ==> i == 0 && first != []
  {
    forall i | |first| <= i < |first + rest| ensures !(first + rest)[i].SuspiciousTld? {
      assert (first + rest)[i] == rest[i - |first|];
    }
  }

  /** Only the first of the flags can name a TLD, and only when a TLD was found. */
  lemma OnlyFirstFlagNamesTld(tlds: seq<string>, tld: Option<nat>, short: bool, brands: seq<string>, noHttps: bool,
                              ip: bool)
    requires tld.Some? ==> tld.value < |tlds|
    ensures var f := SyntaxFlags(tlds, tld, short, brands, noHttps, ip);
      forall i :: 0 <= i < |f| && f[i].SuspiciousTld? ==> i == 0 && tld.Some?
  {
    var first := TldFlags(tlds, tld);
    var rest := FlagIf(short, Shortened) + BrandFlags(brands) + FlagIf(noHttps, NoHttps) + FlagIf(ip, IpHost);
    assert NoTldFlag(rest) by {
      var a, b, c, d := FlagIf(short, Shortened), BrandFlags(brands), FlagIf(noHttps, NoHttps), FlagIf(ip, IpHost);
      assert NoTldFlag(a) && NoTldFlag(b) && NoTldFlag(c) && NoTldFlag(d);
      NoTldFlagAppend(a, b);
      NoTldFlagAppend(a + b, c);
      NoTldFlagAppend(a + b + c, d);
    }
    Regroup(first, FlagIf(short, Shortened), BrandFlags(brands), FlagIf(noHttps, NoHttps), FlagIf(ip, IpHost));
    assert |first| <= 1 && (first != [] <==> tld.Some?);
    TldFlagOnlyFirst(first, rest);
  }

  /**
   * There is at most one TLD flag: it comes first, exactly when a TLD was found,
   * and names the first table entry the domain ends with.
   */
  lemma TldFlagNamesFirstMatch(t: Tables, url: string, n: string)
    ensures var v := VerdictWith(t, url, Some(n)); var d := Lower(n);
      && (v.isSuspiciousTld ==>
            exists i :: 0 <= i < |t.tlds| && EndsWith(d, t.tlds[i]) && v.flags[0] == SuspiciousTld(t.tlds[i])
                        && forall j :: 0 <= j < i ==> !EndsWith(d, t.tlds[j]))
      && (forall i :: 0 <= i < |v.flags| && v.flags[i].SuspiciousTld? ==> i == 0 && v.isSuspiciousTld)
  {
    var d := Lower(n);
    var tld := FirstTld(t.tlds, d, 0);
    OnlyFirstFlagNamesTld(t.tlds, tld, AnyContains(d, t.shorteners), MatchingBrands(t.brands, d),
                          !StartsWith(url, "https://"), DottedQuadPrefix(d));
  }

  /** `impersonating` is the last brand of the table that matches, or `None` when none does. */
  lemma ImpersonatingIsLastMatch(t: Tables, url: string, n: string)
    ensures var v := VerdictWith(t, url, Some(n)); var d := Lower(n);
      && (v.impersonating.None? <==> forall j :: 0 <= j < |t.brands| ==> !BrandHit(t.brands[j], d))
      && (v.impersonating.Some? ==>
            exists j :: 0 <= j < |t.brands| && BrandHit(t.brands[j], d)
                        && t.brands[j].name == v.impersonating.value
                        && forall i :: j < i < |t.brands| ==> !BrandHit(t.brands[i], d))
  {
    var d := Lower(n);
    assert VerdictWith(t, url, Some(n)).impersonating == LastName(MatchingBrands(t.brands, d));
    MatchingBrandsMeaning(t.brands, d);
  }

  lemma DottedQuadExample()
    ensures DottedQuadPrefix("1.2.3.4.paypa1.xyz")
  {
    var d := "1.2.3.4.paypa1.xyz";
    assert d[6..][0] == '4';
    assert OctetsThenDigit(d[6..], 0);
    assert LeadingDigits(d[4..]) == 1 by { assert d[4..][1..] == d[5..]; }
    assert d[4..][2..] == d[6..];
    assert OctetsThenDigit(d[4..], 1);
    assert LeadingDigits(d[2..]) == 1 by { assert d[2..][1..] == d[3..]; }
    assert d[2..][2..] == d[4..];
    assert OctetsThenDigit(d[2..], 2);
    assert LeadingDigits(d) == 1 by { assert d[1..][0] == '.'; }
  }

  lemma PlainHttpExample()
    ensures !StartsWith("http://1.2.3.4.paypa1.xyz", "https://")
  {
    assert "http://1.2.3.4.paypa1.xyz"[4] == ':';
  }

  lemma LookalikeExample()
    ensures Contains("1.2.3.4.paypa1.xyz", "paypa1") && EndsWith("1.2.3.4.paypa1.xyz", ".xyz")
  {
    assert "paypa1" <= "1.2.3.4.paypa1.xyz"[8..];
  }

  lemma LowerCaseExample()
    ensures Lower("1.2.3.4.paypa1.xyz") == "1.2.3.4.paypa1.xyz"
  {
  }

  lemma UncappedWith(t: Tables)
    requires |t.tlds| > 0 && t.tlds[0] == ".xyz"
    requires |t.brands| > 0 && |t.brands[0].fakes| > 0 && t.brands[0].fakes[0] == "paypa1"
    ensures VerdictWith(t, "http://1.2.3.4.paypa1.xyz", Some("1.2.3.4.paypa1.xyz")).riskScore > 100
  {
    var d := "1.2.3.4.paypa1.xyz";
    PlainHttpExample();
    LowerCaseExample();
    DottedQuadExample();
    VerdictParts(t, "http://1.2.3.4.paypa1.xyz", d);
    LookalikeExample();
    assert FirstTld(t.tlds, d, 0) == Some(0);
    assert BrandHit(t.brands[0], d);
    MatchingBrandsMeaning(t.brands, d);
    assert |MatchingBrands(t.brands, d)| >= 1;
  }

  /**
   * Nothing caps the syntax score: a plain-http URL on an IP-like host with a
   * suspicious TLD and a PayPal look-alike scores above 100.
   */
  lemma SyntaxRiskIsUncapped()
    ensures SyntaxVerdictOf("http://1.2.3.4.paypa1.xyz", Some("1.2.3.4.paypa1.xyz")).riskScore > 100
  {
    UncappedWith(SourceTables);
  }

  /** A URL whose netloc cannot be parsed scores zero, with no flags. */
  lemma UnparsableUrlScoresZero(url: string)
    ensures SyntaxVerdictOf(url, None).riskScore == 0 && SyntaxVerdictOf(url, None).flags == []
  {
  }

  /** The substring test flags `microsoft.com` as a shortened link, because it contains `t.co`. */
  lemma ShortenerSubstringMatchesMicrosoft()
    ensures SyntaxVerdictOf("https://microsoft.com/", Some("microsoft.com")).isShortened
  {
    var d := "microsoft.com";
    assert Lower(d) == d;
    assert UrlShorteners[2] == "t.co";
    assert d[8..] == "t.com";
    assert UrlShorteners[2] <= d[8..];
    assert Contains(d, UrlShorteners[2]);
    assert AnyContains(d, SourceTables.shorteners);
  }

  /** The look-alike `paypaI` can never match: the domain is lower-cased first. */
  lemma UpperCaseLookalikeNeverMatches(n: string)
    ensures !Contains(Lower(n), TargetedBrands[0].fakes[2])
  {
    var fake := TargetedBrands[0].fakes[2];
    assert fake[5] == 'I';
  }
}
