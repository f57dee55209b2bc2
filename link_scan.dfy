/**
 * `full_link_analysis`, `scan_all_urls_deep` and `scan_all_urls`: one URL's
 * combined verdict, and the loops that scan the first URLs of a message.
 * What the network and `urlparse` would say about a URL are inputs, as
 * functions of the URL.
 */
module LinkScan {
  import opened Wrappers
  import opened Strings
  import opened LinkTypes
  import opened UrlExtract
  import opened LinkSyntax
  import opened LinkContent
  import LinkContentProps

  /** `verdict_class`. */
  datatype Tier = Danger | Warning | Safe

  function TierOf(risk: int): Tier {
    if risk >= 70 then Danger else if risk >= 40 then Warning else Safe
  }

  function VerdictText(t: Tier): string {
    match t
    case Danger => "🚨 خطير جداً - لا تدخل!"
    case Warning => "⚠️ مشبوه - احذر"
    case Safe => "✅ يبدو آمناً"
  }

  /** The dictionary `full_link_analysis` returns. */
  datatype LinkReport = LinkReport(
    url: string,
    domain: string,
    riskScore: int,
    verdict: string,
    tier: Tier,
    isShortened: bool,
    isSuspiciousTld: bool,
    impersonating: Option<string>,
    accessible: bool,
    finalUrl: Option<string>,
    redirected: bool,
    pageTitle: Option<string>,
    contentType: Option<ContentType>,
    fieldsDetected: seq<FieldKind>,
    arabicDescription: string,
    contentSummary: string,
    flags: seq<Flag>)

  /** `full_link_analysis(url)`: the syntax verdict and the content verdict, combined. */
  function FullLinkAnalysis(url: string, netloc: Option<string>, outcome: FetchOutcome): LinkReport {
    var syntax := SyntaxVerdictOf(url, netloc);
    var content := ContentOf(url, netloc, outcome);
    var total := Min(syntax.riskScore + content.riskScore, 100);
    var tier := TierOf(total);
    LinkReport(url, syntax.domain, total, VerdictText(tier), tier, syntax.isShortened, syntax.isSuspiciousTld,
               syntax.impersonating, content.accessible, content.finalUrl, content.redirected, content.pageTitle,
               content.contentType, content.fieldsDetected, content.arabicDescription, content.contentSummary,
               syntax.flags + content.flags)
  }

  lemma SyntaxRiskIsNonNegative(url: string, netloc: Option<string>)
    ensures SyntaxVerdictOf(url, netloc).riskScore >= 0
  {
  }

  /**
   * The combined risk is the sum of the syntax and content risks capped at
   * 100, so it lies in [0, 100]; the tier is danger from 70, warning from 40
   * and safe below; the syntax flags come first, then the content flags.
   */
  lemma FullLinkRiskAndTier(url: string, netloc: Option<string>, outcome: FetchOutcome)
    ensures var r := FullLinkAnalysis(url, netloc, outcome);
      var syntax := SyntaxVerdictOf(url, netloc);
      var content := ContentOf(url, netloc, outcome);
      && r.riskScore == Min(syntax.riskScore + content.riskScore, 100)
      && 0 <= r.riskScore <= 100
      && (r.tier == Danger <==> r.riskScore >= 70)
      && (r.tier == Warning <==> 40 <= r.riskScore < 70)
      && (r.tier == Safe <==> r.riskScore < 40)
      && r.flags == syntax.flags + content.flags
      && |r.flags| == |syntax.flags| + |content.flags|
  {
    SyntaxRiskIsNonNegative(url, netloc);
    LinkContentProps.ContentRiskIsBounded(url, netloc, outcome);
  }

  /** What `scan_all_urls_deep` returns. */
  datatype DeepScan = DeepScan(totalUrls: nat, dangerousUrls: nat, urls: seq<LinkReport>, overallRisk: int,
                               summary: string)

  const NoLinksText: string := "لا توجد روابط"
  const SomeSuspiciousText: string := "⚠️ بعض الروابط مشبوهة"
  const AllSafeText: string := "✅ الروابط تبدو آمنة"

  function DangerText(count: nat): string {
    "🚨 تم اكتشاف " + NatToString(count) + " رابط خطير!"
  }

  /** The summary line for a non-empty scan. */
  function DeepSummary(dangerous: nat, maxRisk: int): string {
    if dangerous > 0 then DangerText(dangerous)
    else if maxRisk >= 40 then SomeSuspiciousText
    else AllSafeText
  }

  /** The indices of `risks` at or above 50. */
  function DangerousAt(risks: seq<int>): set<nat> {
    set i: nat | i < |risks| && risks[i] >= 50
  }

  /** `m` is the greatest of 0 and the values in `risks`. */
  predicate IsMaxRisk(risks: seq<int>, m: int) {
    && m >= 0
    && (forall i :: 0 <= i < |risks| ==> risks[i] <= m)
    && (m == 0 || exists i :: 0 <= i < |risks| && risks[i] == m)
  }

  function DeepRisks(reports: seq<LinkReport>): (r: seq<int>)
    ensures |r| == |reports| && forall i :: 0 <= i < |r| ==> r[i] == reports[i].riskScore
  {
    seq(|reports|, i requires 0 <= i < |reports| => reports[i].riskScore)
  }

  /**
   * The accumulator loop of both scans: the running maximum (from 0) and the
   * number of risks at or above 50.
   */
  method MaxAndCount(risks: seq<int>) returns (maxRisk: int, dangerous: nat)
    ensures IsMaxRisk(risks, maxRisk)
    ensures dangerous == |DangerousAt(risks)|
  {
    maxRisk, dangerous := 0, 0;
    var i := 0;
    while i < |risks|
      invariant 0 <= i <= |risks|
      invariant IsMaxRisk(risks[..i], maxRisk)
      invariant dangerous == |DangerousAt(risks[..i])|
    {
      assert DangerousAt(risks[..i + 1]) == DangerousAt(risks[..i]) + (if risks[i] >= 50 then {i} else {});
      if risks[i] > maxRisk {
        maxRisk := risks[i];
      }
      if risks[i] >= 50 {
        dangerous := dangerous + 1;
      }
      i := i + 1;
      assert forall j :: 0 <= j < i - 1 ==> risks[..i][j] == risks[..i - 1][j];
    }
    assert risks[..i] == risks;
  }

  /** The analysis the deep scan applies to each URL. */
  function Analyzer(netlocOf: string -> Option<string>, fetch: string -> FetchOutcome): string -> LinkReport {
    url => FullLinkAnalysis(url, netlocOf(url), fetch(url))
  }

  /** The properties of a deep scan of the extracted `urls`. */
  predicate IsDeepScanOf(r: DeepScan, urls: seq<string>, netlocOf: string -> Option<string>,
                         fetch: string -> FetchOutcome)
  {
    && r.totalUrls == |urls|
    && |r.urls| == Min(|urls|, 5)
    && r.urls == MapSeq(Analyzer(netlocOf, fetch), urls[..Min(|urls|, 5)])
    && IsMaxRisk(DeepRisks(r.urls), r.overallRisk)
    && r.dangerousUrls == |DangerousAt(DeepRisks(r.urls))|
    && r.summary == (if urls == [] then NoLinksText else DeepSummary(r.dangerousUrls, r.overallRisk))
  }

  /**
   * `scan_all_urls_deep(text)`: the first five extracted URLs, analysed in
   * full; the overall risk is their maximum (0 if none) and the dangerous
   * count the number at or above 50.
   */
  method ScanAllUrlsDeep(text: string, netlocOf: string -> Option<string>, fetch: string -> FetchOutcome)
    returns (r: DeepScan)
    ensures IsDeepScanOf(r, ExtractUrls(text), netlocOf, fetch)
  {
    var urls := ExtractUrls(text);
    r := ScanUrlsDeep(urls, netlocOf, fetch);
  }

  /** The body of `scan_all_urls_deep` after extraction. */
  method ScanUrlsDeep(urls: seq<string>, netlocOf: string -> Option<string>, fetch: string -> FetchOutcome)
    returns (r: DeepScan)
    ensures IsDeepScanOf(r, urls, netlocOf, fetch)
  {
    if urls == [] {
      return DeepScan(0, 0, [], 0, NoLinksText);
    }
    var results: seq<LinkReport> := [];
    var i := 0;
    var analyze := Analyzer(netlocOf, fetch);
    while i < Min(|urls|, 5)
      invariant 0 <= i <= Min(|urls|, 5)
      invariant results == MapSeq(analyze, urls[..i])
    {
      assert urls[..i + 1][..i] == urls[..i];
      results := results + [analyze(urls[i])];
      i := i + 1;
    }
    var maxRisk, dangerous := MaxAndCount(DeepRisks(results));
    r := DeepScan(|urls|, dangerous, results, maxRisk, DeepSummary(dangerous, maxRisk));
  }

  /** What `scan_all_urls` returns. */
  datatype QuickScan = QuickScan(totalUrls: nat, dangerousUrls: nat, urls: seq<SyntaxVerdict>, overallRisk: int)

  function SyntaxRisks(verdicts: seq<SyntaxVerdict>): (r: seq<int>)
    ensures |r| == |verdicts| && forall i :: 0 <= i < |r| ==> r[i] == verdicts[i].riskScore
  {
    seq(|verdicts|, i requires 0 <= i < |verdicts| => verdicts[i].riskScore)
  }

  /** The analysis the quick scan applies to each URL. */
  function SyntaxAnalyzer(netlocOf: string -> Option<string>): string -> SyntaxVerdict {
    url => SyntaxVerdictOf(url, netlocOf(url))
  }

  /** The properties of a quick scan of the extracted `urls`. */
  predicate IsQuickScanOf(r: QuickScan, urls: seq<string>, netlocOf: string -> Option<string>) {
    && r.totalUrls == |urls|
    && |r.urls| == Min(|urls|, 10)
    && r.urls == MapSeq(SyntaxAnalyzer(netlocOf), urls[..Min(|urls|, 10)])
    && IsMaxRisk(SyntaxRisks(r.urls), r.overallRisk)
    && r.dangerousUrls == |DangerousAt(SyntaxRisks(r.urls))|
  }

  /** `scan_all_urls(text)`: the first ten extracted URLs, by syntax alone (uncapped scores). */
  method ScanAllUrls(text: string, netlocOf: string -> Option<string>) returns (r: QuickScan)
    ensures IsQuickScanOf(r, ExtractUrls(text), netlocOf)
  {
    var urls := ExtractUrls(text);
    r := ScanUrlsQuick(urls, netlocOf);
  }

  /** The body of `scan_all_urls` after extraction. */
  method ScanUrlsQuick(urls: seq<string>, netlocOf: string -> Option<string>) returns (r: QuickScan)
    ensures IsQuickScanOf(r, urls, netlocOf)
  {
    if urls == [] {
      return QuickScan(0, 0, [], 0);
    }
    var results: seq<SyntaxVerdict> := [];
    var i := 0;
    ghost var analyze := SyntaxAnalyzer(netlocOf);
    while i < Min(|urls|, 10)
      invariant 0 <= i <= Min(|urls|, 10)
      invariant results == MapSeq(analyze, urls[..i])
    {
      var v := AnalyzeUrlSyntax(urls[i], netlocOf(urls[i]));
      assert v == analyze(urls[i]);
      assert urls[..i + 1][..i] == urls[..i];
      results := results + [v];
      i := i + 1;
    }
    var maxRisk, dangerous := MaxAndCount(SyntaxRisks(results));
    r := QuickScan(|urls|, dangerous, results, maxRisk);
  }

  /**
   * A deep scan looks at no more than five URLs; its overall risk lies in
   * [0, 100], because every combined risk is capped, and its dangerous count
   * is at most the number scanned.
   */
  lemma DeepScanIsBounded(r: DeepScan, urls: seq<string>, netlocOf: string -> Option<string>,
                          fetch: string -> FetchOutcome)
    requires IsDeepScanOf(r, urls, netlocOf, fetch)
    ensures |r.urls| <= 5 && 0 <= r.overallRisk <= 100
    ensures r.dangerousUrls <= |r.urls|
  {
    var risks := DeepRisks(r.urls);
    if r.overallRisk != 0 {
      var i :| 0 <= i < |risks| && risks[i] == r.overallRisk;
      var u := urls[..Min(|urls|, 5)][i];
      FullLinkRiskAndTier(u, netlocOf(u), fetch(u));
    }
    DangerousWithin(risks);
  }

  lemma {:induction false} DangerousWithin(risks: seq<int>)
    ensures |DangerousAt(risks)| <= |risks|
    decreases |risks|
  {
    if risks != [] {
      var prefix := risks[..|risks| - 1];
      DangerousWithin(prefix);
      assert DangerousAt(risks) == DangerousAt(prefix) + (if risks[|prefix|] >= 50 then {|prefix|} else {});
    }
  }

  /** The summary names the danger count exactly when some scanned URL reached 50. */
  lemma DeepSummaryNamesDanger(dangerous: nat, maxRisk: int)
    ensures (DeepSummary(dangerous, maxRisk) == DangerText(dangerous)) <==> dangerous > 0
    ensures DeepSummary(dangerous, maxRisk) == SomeSuspiciousText <==> dangerous == 0 && maxRisk >= 40
  {
    var d := DangerText(dangerous);
    assert d[0] == '🚨';
    assert SomeSuspiciousText[0] != '🚨' && AllSafeText[0] != '🚨';
  }
}
