# Aman: a Dafny model of the link scanner, score fusion, learning loop and analytics store

Aman is a fraud-detection server for e-mail and SMS text. This project models
its deterministic core in Dafny and proves what that core promises. The core
has three parts.

**Link scanner** (`backend/link_scanner.py`)
- It pulls the URLs out of a message (`extract_urls`).
- It scores each URL's syntax from three tables (`analyze_url_syntax`):
  - suspicious TLDs;
  - shorteners;
  - brand look-alikes.
- It classifies the fetched page (`fetch_and_analyze_content`):
  - the input fields it asks for;
  - its content type;
  - forms that post to another host.
- It writes two Arabic texts about the page (`build_arabic_description`, `build_content_summary`).
- It combines everything into one verdict per link (`full_link_analysis`).
- It scans the first five URLs in full (`scan_all_urls_deep`) or the first ten by syntax only (`scan_all_urls`).

**Fusion and learning** (`backend/main.py`)
- The `analyze` endpoint adds link alerts to the rule flags.
- It blends the rule, classifier, language-model and link scores with one of four weight sets.
- It applies a floor of 75 when a link asks for login or payment data.
- It puts the requested fields at the head of the advice.
- Every analysed message is stored as a labelled row. After 20 rows the classifier is retrained (`save_email_for_learning`, `auto_retrain`, `merge_training_data`, `learning_status`).

**Analytics** (`backend/analytics.py`)
- The `AnalyticsStore` class counts analyses per risk tier.
- It keeps a histogram of threat types.
- It keeps the last 100 analyses.

## How the model is organised

**Files and modules.** Each `.dfy` file holds one module:
- `wrappers.dfy`: `Option`.
- `strings.dfy`: the Python string operations used, on `seq<char>`, plus the list comprehension `MapSeq`.
- `url_extract.dfy`: `extract_urls`.
- `link_types.dfy`: flags, field kinds and the two verdict records.
- `link_syntax.dfy`: `analyze_url_syntax`.
- `link_describe.dfy`: the two text builders.
- `link_content.dfy`:
  - module `LinkContent`, the page classification;
  - module `LinkContentProps`, its properties.
- `link_scan.dfy`: `full_link_analysis` and the two scans.
- `fusion.dfy`: the fusion block of `analyze`.
- `learning.dfy`: the learning loop.
- `analytics.dfy`: the analytics store.

**Loops become methods.** Where the source loops and updates variables, the model has a method with a loop. Examples: the TLD, shortener and brand loops, the input and form loops, the scan loops, the escalation and advice loops, and the merge. Each method's `ensures` ties its result to a specification function, and lemmas state what the source promises about that function.

**Classes.** The learning state and the analytics store are classes whose methods update fields.
- `Learning.Learner` holds the global counter, the pending and corpus files, and the classifier's trained flag.
- `Analytics.AnalyticsStore` keeps a ghost history of every recorded analysis. Its `Valid()` invariant ties the counters, the histogram and the recent list to that history.

**Inputs that stand in for unmodelled code.**
- `urlparse(...).netloc` is an `Option<string>` input, where `None` means `urlparse` raised.
- The outcome of the HTTP GET is an input `FetchOutcome`. It is a timeout, another exception, or a response with status, final URL, final host and the parsed page. The page has its title, its inputs' four attributes, its forms' actions with their netlocs, and the lower-cased body.
- In the scans, both are functions of the URL.
- The scores of the rule scorer, the classifier and the language model are inputs to fusion.
- Which step of a retrain raises, if any, is an input `RetrainOutcome`.

### Where the code is followed over the intended design
- **Syntax risk is not capped.** Only the combined link risk is capped at 100. `LinkSyntax.SyntaxRiskIsUncapped` exhibits a URL scoring more than 100.
- **Cross-host forms.** Every qualifying form that posts elsewhere adds 30 and one flag. Forms are compared with the netloc of the requested URL, not the final URL.
- **An exception inside the form loop is handled by the generic handler.** An exception there (the `urlparse` of an action or of the URL raising) adds the "unreachable" flag. It keeps the risk accumulated so far, and the two texts are never built (`LinkContentProps.RaisingFormSkipsDescriptions`).
- **Shortener and look-alike checks are plain substring tests.** So `microsoft.com` counts as shortened because it contains `t.co` (`LinkSyntax.ShortenerSubstringMatchesMicrosoft`). The domain is lower-cased before the look-alike test, so the listed look-alike `paypaI` can never match (`LinkSyntax.UpperCaseLookalikeNeverMatches`).
- **The fused score is not clamped at 0.** The language-model score is unconstrained, so no lower bound is claimed. `Fusion.FinalScoreWithDeepScan` gives the range [0, 100] only when the three other scores lie in [0, 100].
- **A missing model file does not raise.** `load()` returns false without raising. A retrain whose reload finds no model file therefore still resets the counter and reports success.

## Model

| member | source | states |
|---|---|---|
| UrlExtract.UrlRun | backend/link_scanner.py:40 | the character class `[^\s<>"{}\|\\^`\[\]]+` matches greedily: every character of the run is a URL character and the next one is not |
| UrlExtract.Matches | backend/link_scanner.py:40-41 | every `findall` match is `http://` or `https://` followed by URL characters, and occurs in the text |
| UrlExtract.Kept | backend/link_scanner.py:42-46 | a URL is kept exactly when it is some match with trailing `.,;:!?)` stripped and is longer than 10 characters |
| UrlExtract.Dedup | backend/link_scanner.py:47 | `list(set(...))` has the same members and no duplicates |
| UrlExtract.StrippedMatch | backend/link_scanner.py:43-45 | a stripped match longer than 10 still starts with the scheme, ends in no trailing punctuation, and occurs in the text |
| UrlExtract.ExtractUrls | backend/link_scanner.py:38-47 | every URL returned starts with `http://` or `https://`, is longer than 10, does not end with `.,;:!?)`, occurs in the text and appears once; a string is returned exactly when it is a stripped match longer than 10 |
| LinkSyntax.FirstTld | backend/link_scanner.py:67-72 | the TLD found is the first entry of the table that the domain ends with; none means no entry matches |
| LinkSyntax.MatchingBrandsMeaning | backend/link_scanner.py:81-87 | no brand is reported exactly when no brand has a look-alike in the domain; otherwise the last one reported hits and no later brand does |
| LinkSyntax.MatchingBrandsCount | backend/link_scanner.py:81-87 | the brand loop fires once per brand with some look-alike in the domain |
| LinkSyntax.CheckTld | backend/link_scanner.py:67-72 | the TLD loop finds the first matching TLD and adds exactly its one flag |
| LinkSyntax.CheckShortener | backend/link_scanner.py:74-79 | the shortener loop fires exactly when some shortener is a substring of the domain |
| LinkSyntax.CheckBrand | backend/link_scanner.py:82-87 | the inner look-alike loop fires exactly when one of the brand's look-alikes is a substring |
| LinkSyntax.CheckBrands | backend/link_scanner.py:81-87 | +40 and one flag per impersonated brand; `impersonating` is the last such brand |
| LinkSyntax.ScoreDomain | backend/link_scanner.py:64-95 | the five checks leave the risk and flags of the specification, in the checks' order |
| LinkSyntax.AnalyzeWith | backend/link_scanner.py:50-100 | the analyzer over any tables returns the specified verdict, the default one when the URL cannot be parsed |
| LinkSyntax.AnalyzeUrlSyntax | backend/link_scanner.py:50-100 | `analyze_url_syntax` returns the specified verdict over the source's tables |
| LinkSyntax.SyntaxRiskIsAdditive | backend/link_scanner.py:62-95 | risk = 25·[listed TLD] + 20·[shortener substring] + 40·(brands with a look-alike) + 15·[no `https://`] + 30·[dotted-quad host]; one flag per contribution; no cap |
| LinkSyntax.TldFlagNamesFirstMatch | backend/link_scanner.py:67-72 | at most one TLD flag: any flag naming a TLD is the first flag and appears only when a TLD was found, and it names the first listed TLD the domain ends with |
| LinkSyntax.ImpersonatingIsLastMatch | backend/link_scanner.py:81-87 | `impersonating` is the last matching brand in table order, or none |
| LinkSyntax.UncappedWith | backend/link_scanner.py:62-95 | over any tables whose first TLD is `.xyz` and first look-alike `paypa1`, a plain-http dotted-quad look-alike URL scores above 100 |
| LinkSyntax.SyntaxRiskIsUncapped | backend/link_scanner.py:62-95 | with the source's tables, `http://1.2.3.4.paypa1.xyz` scores above 100 |
| LinkSyntax.UnparsableUrlScoresZero | backend/link_scanner.py:97-100 | when `urlparse` raises, the verdict has risk 0 and no flags |
| LinkSyntax.ShortenerSubstringMatchesMicrosoft | backend/link_scanner.py:74-79 | `microsoft.com` is flagged as shortened, since it contains `t.co` |
| LinkSyntax.UpperCaseLookalikeNeverMatches | backend/link_scanner.py:25 | the look-alike `paypaI` never occurs in a lower-cased domain |
| LinkSyntax.DottedQuadExample | backend/link_scanner.py:93 | `1.2.3.4.paypa1.xyz` matches the dotted-quad pattern |
| LinkDescribe.DescriptionFallsBackIffNothingApplies | backend/link_scanner.py:256-292 | the description is one of the two fixed texts exactly when no content type, field, warning or title applies; then it is the ordinary text exactly when the page was reached |
| LinkDescribe.BuildContentSummary | backend/link_scanner.py:295-311 | the summary is never empty |
| LinkDescribe.SummaryFollowsPriority | backend/link_scanner.py:295-311 | each summary is returned exactly when its condition is the first that holds: card, password with e-mail, password, OTP, download, redirect, reached, otherwise unknown |
| LinkContent.ScanForms | backend/link_scanner.py:229-237 | the form loop counts at most one external post per form |
| LinkContent.NoteFields | backend/link_scanner.py:161-206 | one pass of the input loop body makes the seven checks in order |
| LinkContent.DetectFields | backend/link_scanner.py:158-208 | the input loop yields the field list and the four booleans, each true exactly when some input shows that kind |
| LinkContent.DetectDownload | backend/link_scanner.py:222 | the download check holds exactly when the lower-cased body contains a download token |
| LinkContent.CheckForms | backend/link_scanner.py:228-237 | the form loop adds +30 and one flag per qualifying form posting elsewhere, stopping at a form that raises |
| LinkContent.RecordResponse | backend/link_scanner.py:140-155 | a 200 response marks the page reached, records the final URL, the redirect (+15 and one flag) and the stripped title cut to 100 |
| LinkContent.RecordFields | backend/link_scanner.py:158-225 | the input loop and the content-type checks leave the specified verdict |
| LinkContent.RecordContentType | backend/link_scanner.py:211-225 | the three content-type checks: the last that fires wins, and all their risks add |
| LinkContent.DetectedOwnFields | backend/link_scanner.py:211-225 | the checks change only the login and download flags, the content type (download, else payment, else login, else unchanged) and the risk (+30, +50, +25) |
| LinkContent.RecordForms | backend/link_scanner.py:228-237 | the form loop leaves the specified verdict and reports whether it raised |
| LinkContent.ClassifyPage | backend/link_scanner.py:140-241 | the classification of a 200 page is the specified verdict before the final cap |
| LinkContent.FetchAndAnalyzeContent | backend/link_scanner.py:103-253 | `fetch_and_analyze_content` returns the specified verdict for every fetch outcome |
| LinkContentProps.FieldsAreDistinctAndComplete | backend/link_scanner.py:159-208 | `fields_detected` has no duplicates and holds a kind exactly when some input shows it |
| LinkContentProps.AtMostSevenFields | backend/link_scanner.py:159-208 | `fields_detected` has at most 7 entries |
| LinkContentProps.FieldsInDetectionOrder | backend/link_scanner.py:159-208 | the fields are in first-detection order: an earlier entry was seen at an earlier input, or earlier in the checks of the same input |
| LinkContentProps.FlagsAgreeWithFields | backend/link_scanner.py:170-191 | the password, e-mail, card and OTP booleans hold exactly when their label is in `fields_detected` |
| LinkContentProps.LoginIffPassword | backend/link_scanner.py:213-216 | `has_login_form` holds exactly when `has_password_field` does |
| LinkContentProps.ContentTypePrecedence | backend/link_scanner.py:213-225 | the content type is download, else payment, else login, else none |
| LinkContentProps.ReachedPageKind | backend/link_scanner.py:170-225 | for a 200 response the download marker holds exactly when the body names a download token, the card and password booleans exactly when some input asks for them, and the content type follows from the page: download, else card, else password, else none |
| LinkContentProps.ScanFormsCounts | backend/link_scanner.py:229-237 | the form loop raises exactly when some qualifying form cannot be parsed; otherwise it counts exactly the qualifying forms posting to another netloc |
| LinkContentProps.ContentRiskFormula | backend/link_scanner.py:144-252 | for a 200 response, risk = min(15·redirect + 30·password + 50·card + 25·download + 30·external forms, 100) |
| LinkContentProps.ContentFlagsFormula | backend/link_scanner.py:144-250 | for a 200 response the flags are the redirect flag, one per external form, then unreachable if a form raised; `form_action_external` holds exactly when some form posted elsewhere; without a raise the count is the number of forms posting to another netloc |
| LinkContentProps.ContentRiskIsBounded | backend/link_scanner.py:252 | for every fetch outcome the content risk lies in [0, 100] |
| LinkContentProps.ReachedPageTexts | backend/link_scanner.py:228-250 | for a 200 response: when the form loop raises, the last flag is unreachable and the texts are empty; otherwise both texts are non-empty and there is no unreachable flag |
| LinkContentProps.RaisingFormSkipsDescriptions | backend/link_scanner.py:228-250 | when a qualifying form's `urlparse` raises, the last flag is unreachable and neither text is built |
| LinkContentProps.ParsedFormsGetDescriptions | backend/link_scanner.py:228-241 | when no form raises, both texts are built and non-empty and there is no unreachable flag |
| LinkContentProps.DescriptionIsNeverEmpty | backend/link_scanner.py:256-292 | the Arabic description is never empty |
| LinkContentProps.RedirectIffFinalUrlDiffers | backend/link_scanner.py:140-147 | a redirect is recorded exactly when a 200 response ended on another URL string |
| LinkScan.FullLinkRiskAndTier | backend/link_scanner.py:314-349 | risk = min(syntax + content, 100), in [0, 100]; danger from 70, warning from 40, else safe; syntax flags then content flags |
| LinkScan.MaxAndCount | backend/link_scanner.py:368-376 | the accumulator loop returns the greatest risk (0 if none) and the number of risks at least 50 |
| LinkScan.ScanUrlsDeep | backend/link_scanner.py:357-391 | the deep scan analyses the first five URLs in order and reports their maximum, their dangerous count, the full URL count and the summary; which five are scanned depends on the order of the extracted list, which the source leaves unspecified |
| LinkScan.ScanAllUrlsDeep | backend/link_scanner.py:353-391 | `scan_all_urls_deep` is that scan of the extracted URLs |
| LinkScan.ScanUrlsQuick | backend/link_scanner.py:397-417 | the quick scan analyses the first ten URLs by syntax, with their maximum and dangerous count; which ten are scanned depends on the order of the extracted list, which the source leaves unspecified |
| LinkScan.ScanAllUrls | backend/link_scanner.py:394-417 | `scan_all_urls` is that scan of the extracted URLs |
| LinkScan.DeepScanIsBounded | backend/link_scanner.py:370-376 | a deep scan reports at most five links, an overall risk in [0, 100] and a dangerous count at most the number scanned |
| LinkScan.DeepSummaryNamesDanger | backend/link_scanner.py:378-383 | the summary names the danger count exactly when it is positive, and says "some suspicious" exactly when none is dangerous but the maximum is at least 40 |
| Fusion.AlertFor | backend/main.py:445-450 | a link alert is critical exactly when the link's risk is at least 70, and its title holds at most 30 characters of the domain |
| Fusion.AddLinkAlerts | backend/main.py:441-450 | the rule flags are followed by one alert per link with risk at least 30 and a summary, in scan order |
| Fusion.AlertingKeepsAlertingLinks | backend/main.py:441-444 | every link given an alert has risk at least 30 and a summary, and is one of the scanned links |
| Fusion.AlertingCountsAlertingLinks | backend/main.py:441-444 | exactly one alert per alerting link |
| Fusion.AlertingKeepsAll | backend/main.py:441-444 | when every link alerts, every link gets its alert, in order |
| Fusion.AlertingKeepsNone | backend/main.py:441-444 | when no link alerts, no alert is added |
| Fusion.AlertSeverityFollowsRisk | backend/main.py:441-450 | the flags grow by the number of alerting links; each added alert is critical exactly when its link's risk is at least 70 |
| Fusion.WeightsFor | backend/main.py:480-487 | each weight set sums to 100 and gives no weight to a missing classifier or API key |
| Fusion.TruncDiv100 | backend/main.py:481-487 | `int()` truncates the weighted sum toward zero |
| Fusion.Escalate | backend/main.py:492-496 | the score is raised to at least 75 exactly when some link is a payment or login page with risk at least 50, and is otherwise unchanged |
| Fusion.FuseScores | backend/main.py:479-496 | the final score is the weighted base capped at 100, then escalated |
| Fusion.FinalScoreBounds | backend/main.py:489-496 | the final score is at most 100; at least 75 with a data-demanding link; otherwise min(base, 100) |
| Fusion.BaseScoreInRange | backend/main.py:480-489 | with every score in [0, 100] the base score is in [0, 100] |
| Fusion.BaseScoreIsMonotone | backend/main.py:480-487 | raising any score never lowers the base score |
| Fusion.TruncDiv100IsMonotone | backend/main.py:481-487 | truncation toward zero is monotone |
| Fusion.FinalScoreWithDeepScan | backend/main.py:437-496 | with the deep scan's overall risk as link score and the other scores in [0, 100], the final score is in [0, 100] |
| Fusion.ShortLabelDropsIcon | backend/main.py:505 | each advice label is its field label with the key, card or envelope icon removed |
| Fusion.LinkAdvice | backend/main.py:503-507 | the first link with detected fields puts the sentence naming its first three fields before the advice; with none the advice is unchanged |
| Learning.LabelFor | backend/main.py:59 | the stored label is 1 exactly when the score is at least 50, else 0 |
| Learning.ThreatCode | backend/main.py:62-70 | a known threat type maps to its code, any other to `unknown` |
| Learning.ThreatCodeIsKnownOrUnknown | backend/main.py:62-70 | the code is one of seven fixed codes; `unknown` exactly outside the table; `safe` exactly for the ordinary message |
| Learning.ReplaceChar | backend/main.py:81 | `str.replace` of one character replaces every occurrence and keeps the length |
| Learning.CleanText | backend/main.py:81 | the stored text has no line feed or carriage return, at most 500 characters, and is the text with line breaks turned to spaces |
| Learning.CleanTextIsIdempotent | backend/main.py:81 | cleaning a cleaned text changes nothing |
| Learning.StoredRowsAreClean | backend/main.py:75-82 | every row stored is clean and its text at most 500 characters |
| Learning.CleanFileLines | backend/main.py:400-403 | a pending file of clean rows has one line per row plus the header |
| Learning.StatusCountIsPendingRows | backend/main.py:397-406 | `learning_status` reports exactly the number of pending rows |
| Learning.Learner.LearningCount | backend/main.py:397-406 | the reported count is the number of pending rows |
| Learning.Learner.constructor | backend/main.py:27 | the counter starts at 0 |
| Learning.Learner.MergeTrainingData | backend/main.py:119-143 | without a pending file nothing changes; otherwise the corpus gains exactly the pending rows in order, as three columns, and the pending file is removed |
| Learning.Learner.AutoRetrain | backend/main.py:91-116 | the retrain succeeds, and the counter is reset to 0, exactly when no step raised; otherwise the counter is unchanged; merged rows stay merged |
| Learning.Learner.SaveEmailForLearning | backend/main.py:54-89 | one clean labelled row is appended and the counter grows by 1; a retrain runs exactly when the counter reaches 20, and then the counter, the files and the trained flag are those the retrain leaves |
| Analytics.AnalyticsStore.constructor | backend/analytics.py:13-20 | a new store is empty and valid |
| Analytics.AnalyticsStore.Record | backend/analytics.py:22-46 | the store stays a valid summary of its history extended by the entry, so the total, the tier counters, the histogram and the recent list are those of the longer history; the recent list gains the entry, dropping the oldest past 100 |
| Analytics.CountInTier | backend/analytics.py:27-32 | exactly one tier counter grows by 1: high from 70, medium from 40, otherwise low |
| Analytics.CountThreat | backend/analytics.py:35-36 | a non-ordinary threat type's count grows by 1 (from 0 when absent); the ordinary type leaves the histogram unchanged |
| Analytics.PushRecent | backend/analytics.py:39-46 | the entry is appended and the oldest dropped when the list passes 100, so a list of at most 100 stays at most 100 and ends with the entry |
| Analytics.Advance | backend/analytics.py:24-46 | one `record` step on summarising counters yields counters summarising the history extended by the entry |
| Analytics.SummarisesStep | backend/analytics.py:24-46 | the tier increment, the histogram increment and the push keep the counters a summary of the extended history |
| Analytics.AppendStep | backend/analytics.py:24-36 | one more analysis adds one to exactly its tier and to its threat type unless ordinary |
| Analytics.LastNStep | backend/analytics.py:39-46 | appending and then dropping the oldest past the capacity keeps the last entries |
| Analytics.TiersPartitionHistory | backend/analytics.py:27-32 | every analysis falls in exactly one tier, and high + medium counts the analyses scoring 40 or more |
| Analytics.HistogramSumCountsThreats | backend/analytics.py:35-36 | the histogram adds up to the number of non-ordinary analyses |
| Analytics.MapSumIncrement | backend/analytics.py:36 | incrementing one key's count adds one to the histogram's total |
| Analytics.StatsFollowHistory | backend/analytics.py:48-58 | high + medium + low = total; threats blocked = analyses scoring 40 or more; the histogram adds up to at most the total |
| Analytics.RecentIsLastHundred | backend/analytics.py:39-46 | the recent list holds the last min(n, 100) analyses in arrival order, the newest last |

## Left out

- HTTP fetching is not modelled: the `httpx` GET, redirect following and the timeout. Their outcome is an input.
- HTML parsing by BeautifulSoup is not modelled. The page's title, inputs, forms and lower-cased body are an input.
- `urlparse` is not modelled. Its netloc is an input, or `None` when it raises.
- Unicode case mapping is partial. `str.lower()` is modelled for ASCII letters on domains and input attributes. The lower-cased page body is an input, so full Unicode lower-casing of the body is outside the model.
- Unicode digits are left out. `\d` is modelled as ASCII digits.
- `UrlExtract.ExtractUrls` returns the URLs in first-occurrence order. The source's `list(set(...))` order is unspecified. The deep and quick scans therefore take the first five or ten URLs in that order. In the source, which five or ten are scanned is unspecified when there are more.
- The response's `page_description` key is always `None`, so it is left out.
- The rule scorer (`calculate_rule_score`, `detect_threat_type`, `extract_flags`, `get_actions`, `get_advice`) is not part of this model. Its score, threat type, flags and advice are inputs.
- The language-model call and its JSON parsing are not modelled. The score is an unconstrained input.
- The classifier is not modelled: TF-IDF, random forest, pickling and float probabilities. Training, saving and loading are an outcome saying which step raised.
- Fusion.BaseScore uses integer percentages with truncation toward zero. The source multiplies by float weights, so at boundaries its `int()` can differ by one from the exact value.
- Learning.Learner.MergeTrainingData does not model a partial merge where the file system fails mid-way. A merge failure is modelled as raising before anything is written.
- CSV quoting, encodings, timestamps and the `score` and `timestamp` columns' formatting are not modelled.
- The analytics `uptime_hours` and `protection_rate` are floats from the clock and are not modelled.
- `threat_breakdown` is the histogram map itself.
- The Arabic wording of the scanner's flags is not modelled. Each flag is a constructor of `LinkTypes.Flag` that names its kind and its parameter (the TLD, the brand, the host or the status).
- The FastAPI endpoints, the HTML page and the browser extension are not modelled.
- The async code runs sequentially, so there is no concurrency to model.
- Fusion.LinkAdvice models each label's `replace` of the three icons as removing the leading icon. Each label holds at most one of them, at its start (`Fusion.ShortLabelDropsIcon`).
