/**
 * The fusion and escalation steps of the `analyze` endpoint: the link alerts
 * added to the rule flags, the weighted combination of the rule, classifier,
 * language-model and link scores, the floor for dangerous data-requesting
 * links, and the advice prefix naming the fields a link asks for.
 *
 * The rule scorer, the classifier and the language-model call are not part of
 * this model: their scores and flags are inputs.
 */
module Fusion {
  import opened Wrappers
  import opened Strings
  import opened LinkTypes
  import opened LinkContent
  import opened LinkScan

  /** One warning of the response's `flags` list. */
  datatype Severity = Critical | High
  datatype Alert = Alert(icon: string, title: string, description: string, severity: Severity)

  /** A scanned link earns an alert when its risk is at least 30 and it has a summary. */
  predicate RaisesAlert(r: LinkReport) {
    r.riskScore >= 30 && r.contentSummary != ""
  }

  /** The alert for one link: its domain cut to 30 characters, its summary, and its severity. */
  function AlertFor(r: LinkReport): (a: Alert)
    ensures a.severity == Critical <==> r.riskScore >= 70
    ensures |a.title| <= |"رابط: "| + 30
  {
    Alert("🔗", "رابط: " + Take(r.domain, 30), r.contentSummary, if r.riskScore >= 70 then Critical else High)
  }

  /** The reports that raise an alert, in scan order. */
  function Alerting(reports: seq<LinkReport>): seq<LinkReport>
    decreases |reports|
  {
    if reports == [] then []
    else
      var prefix := reports[..|reports| - 1];
      var last := reports[|reports| - 1];
      Alerting(prefix) + (if RaisesAlert(last) then [last] else [])
  }

  /** The indices of `reports` that raise an alert. */
  function AlertingAt(reports: seq<LinkReport>): set<nat> {
    set i: nat | i < |reports| && RaisesAlert(reports[i])
  }

  lemma AlertingStep(reports: seq<LinkReport>, i: nat)
    requires i < |reports|
    ensures Alerting(reports[..i + 1]) == Alerting(reports[..i]) + (if RaisesAlert(reports[i]) then [reports[i]] else [])
  {
    assert reports[..i + 1][..i] == reports[..i];
  }

  /** One more iteration of the alert loop keeps the flags equal to the alerts of the links seen so far. */
  lemma AddAlertStep(flags: seq<Alert>, reports: seq<LinkReport>, i: nat, r: seq<Alert>)
    requires i < |reports| && r == flags + MapSeq(AlertFor, Alerting(reports[..i]))
    ensures (if RaisesAlert(reports[i]) then r + [AlertFor(reports[i])] else r)
            == flags + MapSeq(AlertFor, Alerting(reports[..i + 1]))
  {
    AlertingStep(reports, i);
    if RaisesAlert(reports[i]) {
      MapSeqAppend(AlertFor, Alerting(reports[..i]), reports[i]);
    }
  }

  /**
   * `flags` followed by one alert per alerting link, in scan order: the loop
   * that extends the rule flags with the link warnings.
   */
  method AddLinkAlerts(flags: seq<Alert>, reports: seq<LinkReport>) returns (r: seq<Alert>)
    ensures r == flags + MapSeq(AlertFor, Alerting(reports))
  {
    r := flags;
    var i := 0;
    while i < |reports|
      invariant 0 <= i <= |reports|
      invariant r == flags + MapSeq(AlertFor, Alerting(reports[..i]))
    {
      AddAlertStep(flags, reports, i, r);
      if reports[i].riskScore >= 30 {
        if reports[i].contentSummary != "" {
          r := r + [AlertFor(reports[i])];
        }
      }
      i := i + 1;
    }
    assert reports[..i] == reports;
  }

  /** Each kept report raises an alert and occurs in the scan. */
  lemma {:induction false} AlertingKeepsAlertingLinks(reports: seq<LinkReport>)
    ensures forall r :: r in Alerting(reports) ==> RaisesAlert(r) && r in reports
    decreases |reports|
  {
    if reports != [] {
      var prefix := reports[..|reports| - 1];
      AlertingKeepsAlertingLinks(prefix);
      assert forall r :: r in prefix ==> r in reports;
    }
  }

  /** One report is kept per alerting index. */
  lemma {:induction false} AlertingCountsAlertingLinks(reports: seq<LinkReport>)
    ensures |Alerting(reports)| == |AlertingAt(reports)|
    decreases |reports|
  {
    if reports != [] {
      var prefix := reports[..|reports| - 1];
      AlertingCountsAlertingLinks(prefix);
      assert AlertingAt(reports) == AlertingAt(prefix) + (if RaisesAlert(reports[|prefix|]) then {|prefix|} else {});
    }
  }

  /** When every link raises an alert, all are kept. */
  lemma {:induction false} AlertingKeepsAll(reports: seq<LinkReport>)
    requires forall i :: 0 <= i < |reports| ==> RaisesAlert(reports[i])
    ensures Alerting(reports) == reports
    decreases |reports|
  {
    if reports != [] {
      var prefix := reports[..|reports| - 1];
      assert forall i :: 0 <= i < |prefix| ==> prefix[i] == reports[i];
      AlertingKeepsAll(prefix);
      assert reports == prefix + [reports[|prefix|]];
    }
  }

  /** When no link raises an alert, none is kept. */
  lemma {:induction false} AlertingKeepsNone(reports: seq<LinkReport>)
    requires forall i :: 0 <= i < |reports| ==> !RaisesAlert(reports[i])
    ensures Alerting(reports) == []
    decreases |reports|
  {
    if reports != [] {
      var prefix := reports[..|reports| - 1];
      assert forall i :: 0 <= i < |prefix| ==> prefix[i] == reports[i];
      AlertingKeepsNone(prefix);
    }
  }

  /** Each added alert is critical exactly when its link's risk is at least 70. */
  lemma AlertSeverityFollowsRisk(flags: seq<Alert>, reports: seq<LinkReport>, r: seq<Alert>)
    requires r == flags + MapSeq(AlertFor, Alerting(reports))
    ensures |r| == |flags| + |AlertingAt(reports)|
    ensures forall i :: |flags| <= i < |r| ==>
      (r[i].severity == Critical <==> Alerting(reports)[i - |flags|].riskScore >= 70)
  {
    AlertingCountsAlertingLinks(reports);
  }

  /** The weights, in percent, of the rule, classifier, language-model and link scores. */
  datatype Weights = Weights(rule: nat, ml: nat, ai: nat, link: nat)

  /** The weight set chosen by whether the classifier is trained and an API key is configured. */
  function WeightsFor(trained: bool, hasKey: bool): (w: Weights)
    ensures w.rule + w.ml + w.ai + w.link == 100
    ensures !trained ==> w.ml == 0
    ensures !hasKey ==> w.ai == 0
  {
    if trained && hasKey then Weights(25, 25, 20, 30)
    else if trained then Weights(35, 30, 0, 35)
    else if hasKey then Weights(35, 0, 25, 40)
    else Weights(50, 0, 0, 50)
  }

  /** The four scores fusion combines, and which of the optional ones exist. */
  datatype Signals = Signals(ruleScore: int, mlScore: int, aiScore: int, linkRisk: int, trained: bool, hasKey: bool)

  /** The weighted sum, in hundredths of a point. */
  function WeightedSum(s: Signals): int {
    var w := WeightsFor(s.trained, s.hasKey);
    w.rule * s.ruleScore + w.ml * s.mlScore + w.ai * s.aiScore + w.link * s.linkRisk
  }

  /** Python's `int(w / 100)`: the quotient truncated toward zero. */
  function TruncDiv100(w: int): (r: int)
    ensures w >= 0 ==> r >= 0 && 100 * r <= w < 100 * r + 100
    ensures w < 0 ==> r <= 0 && 100 * r - 100 < w <= 100 * r
  {
    if w >= 0 then w / 100 else -((-w) / 100)
  }

  function BaseScore(s: Signals): int {
    TruncDiv100(WeightedSum(s))
  }

  /** A link asking for login or payment data with risk at least 50. */
  predicate DemandsData(r: LinkReport) {
    (r.contentType == Some(Payment) || r.contentType == Some(Login)) && r.riskScore >= 50
  }

  predicate Escalates(reports: seq<LinkReport>) {
    exists i :: 0 <= i < |reports| && DemandsData(reports[i])
  }

  function Max(a: int, b: int): int {
    if a >= b then a else b
  }

  /** The score of step 5 of `analyze`, from the signals and the scanned links. */
  function FinalScore(s: Signals, reports: seq<LinkReport>): int {
    var capped := Min(BaseScore(s), 100);
    if Escalates(reports) then Max(capped, 75) else capped
  }

  /** The escalation loop: the first data-demanding link raises `score` to at least 75. */
  method Escalate(score: int, reports: seq<LinkReport>) returns (r: int)
    ensures Escalates(reports) ==> r == Max(score, 75)
    ensures !Escalates(reports) ==> r == score
  {
    r := score;
    var i := 0;
    while i < |reports|
      invariant 0 <= i <= |reports|
      invariant forall j :: 0 <= j < i ==> !DemandsData(reports[j])
    {
      var ct := reports[i].contentType;
      if ct == Some(Payment) || ct == Some(Login) {
        if reports[i].riskScore >= 50 {
          r := Max(r, 75);
          return;
        }
      }
      i := i + 1;
    }
  }

  /** Step 5 of `analyze`: the weighted base score, capped at 100, then escalated. */
  method FuseScores(s: Signals, reports: seq<LinkReport>) returns (r: int)
    ensures r == FinalScore(s, reports)
  {
    var w := WeightsFor(s.trained, s.hasKey);
    var base := TruncDiv100(w.rule * s.ruleScore + w.ml * s.mlScore + w.ai * s.aiScore + w.link * s.linkRisk);
    var capped := Min(base, 100);
    r := Escalate(capped, reports);
  }

  /**
   * The final score never exceeds 100; with a data-demanding link it is at
   * least 75, and otherwise it is the base score capped at 100.
   */
  lemma FinalScoreBounds(s: Signals, reports: seq<LinkReport>)
    ensures FinalScore(s, reports) <= 100
    ensures Escalates(reports) ==> FinalScore(s, reports) >= 75
    ensures !Escalates(reports) ==> FinalScore(s, reports) == Min(BaseScore(s), 100)
    ensures Escalates(reports) && BaseScore(s) >= 75 ==> FinalScore(s, reports) == Min(BaseScore(s), 100)
  {
  }

  /** With every score in [0, 100] the base score is in [0, 100], because the weights sum to 100. */
  lemma BaseScoreInRange(s: Signals)
    requires 0 <= s.ruleScore <= 100 && 0 <= s.mlScore <= 100 && 0 <= s.aiScore <= 100
    requires 0 <= s.linkRisk <= 100
    ensures 0 <= BaseScore(s) <= 100
  {
    var w := WeightsFor(s.trained, s.hasKey);
    assert 0 <= WeightedSum(s) <= 100 * (w.rule + w.ml + w.ai + w.link) by {
      WeightedTermBounds(w.rule, s.ruleScore);
      WeightedTermBounds(w.ml, s.mlScore);
      WeightedTermBounds(w.ai, s.aiScore);
      WeightedTermBounds(w.link, s.linkRisk);
    }
  }

  lemma WeightedTermBounds(w: nat, x: int)
    requires 0 <= x <= 100
    ensures 0 <= w * x <= 100 * w
  {
  }

  /**
   * Raising any one score never lowers the base score: every weight is
   * non-negative and truncation is monotone.
   */
  lemma BaseScoreIsMonotone(s: Signals, t: Signals)
    requires s.trained == t.trained && s.hasKey == t.hasKey
    requires s.ruleScore <= t.ruleScore && s.mlScore <= t.mlScore
    requires s.aiScore <= t.aiScore && s.linkRisk <= t.linkRisk
    ensures BaseScore(s) <= BaseScore(t)
  {
    var w := WeightsFor(s.trained, s.hasKey);
    WeightedTermMonotone(w.rule, s.ruleScore, t.ruleScore);
    WeightedTermMonotone(w.ml, s.mlScore, t.mlScore);
    WeightedTermMonotone(w.ai, s.aiScore, t.aiScore);
    WeightedTermMonotone(w.link, s.linkRisk, t.linkRisk);
    TruncDiv100IsMonotone(WeightedSum(s), WeightedSum(t));
  }

  lemma WeightedTermMonotone(w: nat, x: int, y: int)
    requires x <= y
    ensures w * x <= w * y
  {
    assert w * y - w * x == w * (y - x);
  }

  lemma TruncDiv100IsMonotone(a: int, b: int)
    requires a <= b
    ensures TruncDiv100(a) <= TruncDiv100(b)
  {
  }

  /**
   * In `analyze` the link score is the deep scan's overall risk: with the
   * rule, classifier and language-model scores in [0, 100], the final score
   * is in [0, 100] too.
   */
  lemma FinalScoreWithDeepScan(scan: DeepScan, urls: seq<string>, netlocOf: string -> Option<string>,
                               fetch: string -> FetchOutcome, s: Signals)
    requires IsDeepScanOf(scan, urls, netlocOf, fetch)
    requires s.linkRisk == scan.overallRisk
    requires 0 <= s.ruleScore <= 100 && 0 <= s.mlScore <= 100 && 0 <= s.aiScore <= 100
    ensures 0 <= FinalScore(s, scan.urls) <= 100
  {
    DeepScanIsBounded(scan, urls, netlocOf, fetch);
    BaseScoreInRange(s);
    FinalScoreBounds(s, scan.urls);
  }

  /** The field label with its leading key, card or envelope icon removed, as the advice shows it. */
  function ShortLabel(k: FieldKind): string {
    match k
    case Password => "كلمة مرور"
    case Email => "بريد إلكتروني"
    case Card => "بيانات بطاقة بنكية"
    case _ => FieldLabel(k)
  }

  /** The icon `analyze` removes from each label (none for the other kinds). */
  function RemovedIcon(k: FieldKind): string {
    match k
    case Password => "🔑 "
    case Email => "📧 "
    case Card => "💳 "
    case _ => ""
  }

  /** Every label is its removed icon followed by the short label. */
  lemma ShortLabelDropsIcon(k: FieldKind)
    ensures FieldLabel(k) == RemovedIcon(k) + ShortLabel(k)
  {
    match k
    case Password => assert FieldLabel(k) == "🔑 " + "كلمة مرور";
    case Email => assert FieldLabel(k) == "📧 " + "بريد إلكتروني";
    case Card => assert FieldLabel(k) == "💳 " + "بيانات بطاقة بنكية";
    case _ =>
  }

  /** The sentence put before the advice: the first three requested fields. */
  function FieldsAdvice(fields: seq<FieldKind>): string {
    "⚠️ الرابط يطلب: " + Join("، ", MapSeq(ShortLabel, if |fields| <= 3 then fields else fields[..3])) + "! "
  }

  /**
   * The advice loop: the first link with detected fields puts its sentence
   * before `advice`; with no such link the advice is unchanged.
   */
  method LinkAdvice(advice: string, reports: seq<LinkReport>) returns (r: string)
    ensures (forall i :: 0 <= i < |reports| ==> reports[i].fieldsDetected == []) ==> r == advice
    ensures forall i :: (0 <= i < |reports| && reports[i].fieldsDetected != [] &&
                         (forall j :: 0 <= j < i ==> reports[j].fieldsDetected == [])) ==>
      r == FieldsAdvice(reports[i].fieldsDetected) + advice
  {
    r := advice;
    var i := 0;
    while i < |reports|
      invariant 0 <= i <= |reports|
      invariant forall j :: 0 <= j < i ==> reports[j].fieldsDetected == []
    {
      if reports[i].fieldsDetected != [] {
        r := FieldsAdvice(reports[i].fieldsDetected) + advice;
        return;
      }
      i := i + 1;
    }
  }
}
