/**
 * `fetch_and_analyze_content`: what a fetched page asks of its visitor. The
 * GET itself and the HTML parser are not modelled; their outcome is an input
 * (`FetchOutcome`), with the page reduced to the parts the analyzer reads.
 */
module LinkContent {
  import opened Wrappers
  import opened Strings
  import opened LinkTypes
  import opened LinkDescribe

  /** The four attributes of one `<input>` the analyzer reads (a missing one is `""`). */
  datatype Input = Input(inputType: string, name: string, placeholder: string, id: string)

  /** One `<form>`: its `action` (missing: `""`) and that action's netloc (`None`: urlparse raised). */
  datatype Form = Form(action: string, netloc: Option<string>)

  /**
   * A parsed page: the text of its `<title>` if it has one, its inputs and
   * forms, and the body after `str.lower()`.
   */
  datatype Page = Page(title: Option<string>, inputs: seq<Input>, forms: seq<Form>, htmlLower: string)

  /** How the GET ended: a timeout, any other exception, or a response after redirects. */
  datatype FetchOutcome =
    | TimedOut
    | Failed
    | Response(status: int, finalUrl: string, finalHost: string, page: Page)

  /** `f"{type} {name} {placeholder} {id}"`, each part lower-cased. */
  function Attrs(inp: Input): string {
    Lower(inp.inputType) + " " + Lower(inp.name) + " " + Lower(inp.placeholder) + " " + Lower(inp.id)
  }

  /** Whether one input shows a field of kind `k`, by the source's token lists. */
  predicate Hits(inp: Input, k: FieldKind) {
    var a := Attrs(inp);
    match k
    case Password => Lower(inp.inputType) == "password" || Contains(a, "password") || Contains(a, "pass")
    case Email => Lower(inp.inputType) == "email" || Contains(a, "email") || Contains(a, "mail")
    case Card => AnyContains(a, ["card", "credit", "cvv", "cvc", "expir", "بطاقة"])
    case Otp => AnyContains(a, ["otp", "code", "verify", "token", "رمز"])
    case Phone => AnyContains(a, ["phone", "mobile", "tel", "جوال"])
    case NationalId => AnyContains(a, ["ssn", "national", "هوية"])
    case Username => AnyContains(a, ["user", "login", "username"])
  }

  /** Some input of the page shows a field of kind `k`. */
  predicate AnyHits(inputs: seq<Input>, k: FieldKind) {
    exists i :: 0 <= i < |inputs| && Hits(inputs[i], k)
  }

  /** One `if ...: if label not in fields: fields.append(label)` step. */
  function Note(fields: seq<FieldKind>, inp: Input, k: FieldKind): seq<FieldKind> {
    if Hits(inp, k) && k !in fields then fields + [k] else fields
  }

  /** The seven checks the loop body makes on one input, in the source's order. */
  function NoteInput(fields: seq<FieldKind>, inp: Input): seq<FieldKind> {
    var f1 := Note(fields, inp, Password);
    var f2 := Note(f1, inp, Email);
    var f3 := Note(f2, inp, Card);
    var f4 := Note(f3, inp, Otp);
    var f5 := Note(f4, inp, Phone);
    var f6 := Note(f5, inp, NationalId);
    Note(f6, inp, Username)
  }

  /** `fields_detected` after the loop has seen `inputs`. */
  function FieldsOf(inputs: seq<Input>): seq<FieldKind>
    decreases |inputs|
  {
    if inputs == [] then [] else NoteInput(FieldsOf(inputs[..|inputs| - 1]), inputs[|inputs| - 1])
  }

  predicate Distinct<T(==)>(s: seq<T>) {
    forall i, j :: 0 <= i < j < |s| ==> s[i] != s[j]
  }

  const DownloadTokens: seq<string> := ["download", "تحميل", ".exe", ".apk"]

  /** The lower-cased body mentions a download. */
  predicate OffersDownload(htmlLower: string) {
    AnyContains(htmlLower, DownloadTokens)
  }

  /** A form whose action the cross-host check looks at: non-empty, not starting with `/` or `#`. */
  predicate Qualifies(f: Form) {
    f.action != "" && !StartsWith(f.action, "/") && !StartsWith(f.action, "#")
  }

  /** A qualifying form on which `urlparse(action)` or `urlparse(url)` raises. */
  predicate Raises(f: Form, urlNetloc: Option<string>) {
    Qualifies(f) && (f.netloc.None? || urlNetloc.None?)
  }

  /** A qualifying form that posts to a non-empty netloc other than the page URL's own. */
  predicate PostsElsewhere(f: Form, urlNetloc: Option<string>) {
    && Qualifies(f) && f.netloc.Some? && urlNetloc.Some?
    && f.netloc.value != "" && f.netloc.value != urlNetloc.value
  }

  /** What the form loop leaves behind: how many forms posted elsewhere, and whether it raised. */
  datatype FormScan = FormScan(external: nat, raised: bool)

  /** The form loop over `forms`, which stops at the first form that raises. */
  function ScanForms(forms: seq<Form>, urlNetloc: Option<string>): (r: FormScan)
    ensures r.external <= |forms|
    decreases |forms|
  {
    if forms == [] then FormScan(0, false)
    else if Raises(forms[0], urlNetloc) then FormScan(0, true)
    else
      var rest := ScanForms(forms[1..], urlNetloc);
      FormScan(rest.external + (if PostsElsewhere(forms[0], urlNetloc) then 1 else 0), rest.raised)
  }

  /** `n` copies of `f`. */
  function Repeat(f: Flag, n: nat): (r: seq<Flag>)
    ensures |r| == n && forall i :: 0 <= i < n ==> r[i] == f
  {
    seq(n, i => f)
  }

  function Min(a: int, b: int): int {
    if a <= b then a else b
  }

  /** The verdict once a 200 response is in: reached, the final URL, the redirect and the title. */
  function Reached(url: string, finalUrl: string, finalHost: string, title: Option<string>): ContentVerdict {
    var redirected := finalUrl != url;
    InitialContent(url).(
      accessible := true,
      finalUrl := Some(finalUrl),
      redirected := redirected,
      flags := if redirected then [RedirectedTo(finalHost)] else [],
      riskScore := if redirected then 15 else 0,
      pageTitle := if title.Some? then Some(Take(Strip(title.value), 100)) else None)
  }

  /** `v` after the input loop has found `fields` and the four booleans, and the three content-type checks. */
  function Detected(v: ContentVerdict, fields: seq<FieldKind>, pw: bool, email: bool, card: bool, otp: bool,
                    download: bool): ContentVerdict
  {
    // The three assignments to `content_type`; the last one that runs wins.
    var ct1 := if pw then Some(Login) else v.contentType;
    var ct2 := if card then Some(Payment) else ct1;
    var ct3 := if download then Some(Download) else ct2;
    v.(
      hasPasswordField := pw, hasEmailField := email, hasCardFields := card, hasOtpField := otp,
      fieldsDetected := fields,
      hasLoginForm := v.hasLoginForm || pw, hasDownloadButton := v.hasDownloadButton || download,
      contentType := ct3,
      riskScore := v.riskScore + (if pw then 30 else 0) + (if card then 50 else 0) + (if download then 25 else 0))
  }

  function WithFields(v: ContentVerdict, inputs: seq<Input>, html: string): ContentVerdict {
    Detected(v, FieldsOf(inputs), AnyHits(inputs, Password), AnyHits(inputs, Email), AnyHits(inputs, Card),
             AnyHits(inputs, Otp), OffersDownload(html))
  }

  /** `v` after the form loop: +30 and one flag per form posting elsewhere, until a form raises. */
  function WithForms(v: ContentVerdict, forms: seq<Form>, urlNetloc: Option<string>): ContentVerdict {
    var scan := ScanForms(forms, urlNetloc);
    v.(formActionExternal := v.formActionExternal || scan.external > 0,
       flags := v.flags + Repeat(ExternalForm, scan.external),
       riskScore := v.riskScore + 30 * scan.external)
  }

  /**
   * The page as the analyzer leaves it just before the descriptions are
   * built (or before the exception handler runs, when a form raised).
   */
  function Classified(url: string, urlNetloc: Option<string>, finalUrl: string, finalHost: string,
                      page: Page): ContentVerdict
  {
    var reached := Reached(url, finalUrl, finalHost, page.title);
    WithForms(WithFields(reached, page.inputs, page.htmlLower), page.forms, urlNetloc)
  }

  /** `fetch_and_analyze_content(url)`, given `urlparse(url).netloc` and the outcome of the GET. */
  function ContentOf(url: string, urlNetloc: Option<string>, outcome: FetchOutcome): ContentVerdict {
    var init := InitialContent(url);
    match outcome
    case TimedOut => init.(flags := [TooSlow], riskScore := 10)
    case Failed => init.(flags := [Unreachable])
    case Response(status, finalUrl, finalHost, page) =>
      if status != 200 then init.(flags := [HttpError(status)])
      else
        Finished(Classified(url, urlNetloc, finalUrl, finalHost, page), ScanForms(page.forms, urlNetloc).raised)
  }

  /**
   * The end of a reached page's analysis: the exception handler's flag when a
   * form raised, otherwise the two texts; then the cap at 100.
   */
  function Finished(c: ContentVerdict, raised: bool): ContentVerdict {
    var done :=
      if raised then c.(flags := c.flags + [Unreachable])
      else c.(arabicDescription := BuildArabicDescription(c), contentSummary := BuildContentSummary(c));
    done.(riskScore := Min(done.riskScore, 100))
  }

  lemma AnyHitsExtend(inputs: seq<Input>, i: nat, k: FieldKind)
    requires i < |inputs|
    ensures AnyHits(inputs[..i + 1], k) <==> AnyHits(inputs[..i], k) || Hits(inputs[i], k)
  {
    var next := inputs[..i + 1];
    if AnyHits(next, k) && !Hits(inputs[i], k) {
      var j :| 0 <= j < i + 1 && Hits(next[j], k);
      assert inputs[..i][j] == next[j];
    }
    if AnyHits(inputs[..i], k) {
      var j :| 0 <= j < i && Hits(inputs[..i][j], k);
      assert next[j] == inputs[..i][j];
    }
    if Hits(inputs[i], k) {
      assert next[i] == inputs[i];
    }
  }

  /** The body of the input loop on one input. */
  method NoteFields(fields0: seq<FieldKind>, inp: Input) returns (fields: seq<FieldKind>)
    ensures fields == NoteInput(fields0, inp)
  {
    fields := fields0;
    if Hits(inp, Password) && Password !in fields { fields := fields + [Password]; }
    assert fields == Note(fields0, inp, Password);
    ghost var f1 := fields;
    if Hits(inp, Email) && Email !in fields { fields := fields + [Email]; }
    assert fields == Note(f1, inp, Email);
    ghost var f2 := fields;
    if Hits(inp, Card) && Card !in fields { fields := fields + [Card]; }
    assert fields == Note(f2, inp, Card);
    ghost var f3 := fields;
    if Hits(inp, Otp) && Otp !in fields { fields := fields + [Otp]; }
    assert fields == Note(f3, inp, Otp);
    ghost var f4 := fields;
    if Hits(inp, Phone) && Phone !in fields { fields := fields + [Phone]; }
    assert fields == Note(f4, inp, Phone);
    ghost var f5 := fields;
    if Hits(inp, NationalId) && NationalId !in fields { fields := fields + [NationalId]; }
    assert fields == Note(f5, inp, NationalId);
    ghost var f6 := fields;
    if Hits(inp, Username) && Username !in fields { fields := fields + [Username]; }
    assert fields == Note(f6, inp, Username);
  }

  /** The input loop: the field list and the four booleans it sets. */
  method DetectFields(inputs: seq<Input>)
    returns (fields: seq<FieldKind>, pw: bool, email: bool, card: bool, otp: bool)
    ensures fields == FieldsOf(inputs)
    ensures pw == AnyHits(inputs, Password) && email == AnyHits(inputs, Email)
    ensures card == AnyHits(inputs, Card) && otp == AnyHits(inputs, Otp)
  {
    fields, pw, email, card, otp := [], false, false, false, false;
    var i := 0;
    while i < |inputs|
      invariant 0 <= i <= |inputs|
      invariant fields == FieldsOf(inputs[..i])
      invariant pw == AnyHits(inputs[..i], Password) && email == AnyHits(inputs[..i], Email)
      invariant card == AnyHits(inputs[..i], Card) && otp == AnyHits(inputs[..i], Otp)
    {
      var inp := inputs[i];
      assert inputs[..i + 1][..i] == inputs[..i];
      AnyHitsExtend(inputs, i, Password);
      AnyHitsExtend(inputs, i, Email);
      AnyHitsExtend(inputs, i, Card);
      AnyHitsExtend(inputs, i, Otp);
      pw := pw || Hits(inp, Password);
      email := email || Hits(inp, Email);
      card := card || Hits(inp, Card);
      otp := otp || Hits(inp, Otp);
      fields := NoteFields(fields, inp);
      i := i + 1;
    }
    assert inputs[..i] == inputs;
  }

  /** The form loop: +30 and one flag per form posting elsewhere, until a form raises. */
  method CheckForms(forms: seq<Form>, urlNetloc: Option<string>, risk0: int, flags0: seq<Flag>)
    returns (risk: int, flags: seq<Flag>, external: bool, raised: bool)
    ensures var scan := ScanForms(forms, urlNetloc);
      && risk == risk0 + 30 * scan.external
      && flags == flags0 + Repeat(ExternalForm, scan.external)
      && external == (scan.external > 0)
      && raised == scan.raised
  {
    risk, flags, external, raised := risk0, flags0, false, false;
    ghost var count: nat := 0;
    var i := 0;
    while i < |forms|
      invariant 0 <= i <= |forms|
      invariant ScanForms(forms, urlNetloc) == (if raised then FormScan(count, true)
        else FormScan(count + ScanForms(forms[i..], urlNetloc).external, ScanForms(forms[i..], urlNetloc).raised))
      invariant risk == risk0 + 30 * count && flags == flags0 + Repeat(ExternalForm, count)
      invariant external == (count > 0)
    {
      var f := forms[i];
      assert forms[i..][0] == f && forms[i..][1..] == forms[i + 1..];
      if Qualifies(f) {
        if f.netloc.None? || urlNetloc.None? {
          raised := true;
          break;
        }
        if f.netloc.value != "" && f.netloc.value != urlNetloc.value {
          external := true;
          flags := flags + [ExternalForm];
          risk := risk + 30;
          count := count + 1;
        }
      }
      i := i + 1;
    }
  }

  /** `fetch_and_analyze_content(url)`, step by step as the source updates its result. */
  method FetchAndAnalyzeContent(url: string, urlNetloc: Option<string>, outcome: FetchOutcome)
    returns (result: ContentVerdict)
    ensures result == ContentOf(url, urlNetloc, outcome)
  {
    result := InitialContent(url);
    match outcome {
      case TimedOut =>
        result := result.(flags := result.flags + [TooSlow], riskScore := result.riskScore + 10);
      case Failed =>
        result := result.(flags := result.flags + [Unreachable]);
      case Response(status, finalUrl, finalHost, page) =>
        if status == 200 {
          result := ClassifyPage(url, urlNetloc, finalUrl, finalHost, page);
        } else {
          result := result.(flags := result.flags + [HttpError(status)]);
        }
    }
    result := result.(riskScore := Min(result.riskScore, 100));
  }

  /** The branch for a 200 response, including the exception handler a raising form reaches. */
  method ClassifyPage(url: string, urlNetloc: Option<string>, finalUrl: string, finalHost: string, page: Page)
    returns (result: ContentVerdict)
    ensures var c := ContentOf(url, urlNetloc, Response(200, finalUrl, finalHost, page));
      result == c.(riskScore := result.riskScore) && Min(result.riskScore, 100) == c.riskScore
  {
    result := RecordResponse(url, finalUrl, finalHost, page.title);
    result := RecordFields(result, page.inputs, page.htmlLower);
    var raised;
    result, raised := RecordForms(result, page.forms, urlNetloc);
    if raised {
      result := result.(flags := result.flags + [Unreachable]);
    } else {
      result := result.(arabicDescription := BuildArabicDescription(result),
                        contentSummary := BuildContentSummary(result));
    }
  }

  /** Lines that mark the page reached, record a redirect and read the title. */
  method RecordResponse(url: string, finalUrl: string, finalHost: string, title: Option<string>)
    returns (result: ContentVerdict)
    ensures result == Reached(url, finalUrl, finalHost, title)
  {
    var init := InitialContent(url);
    var redirected, flags, risk := init.redirected, init.flags, init.riskScore;
    if finalUrl != url {
      redirected, flags, risk := true, flags + [RedirectedTo(finalHost)], risk + 15;
    }
    var pageTitle := init.pageTitle;
    if title.Some? {
      pageTitle := Some(Take(Strip(title.value), 100));
    }
    result := init.(accessible := true, finalUrl := Some(finalUrl), redirected := redirected, flags := flags,
                    riskScore := risk, pageTitle := pageTitle);
  }

  /** The input loop, then the three content-type checks, each adding its risk. */
  method RecordFields(v: ContentVerdict, inputs: seq<Input>, htmlLower: string) returns (result: ContentVerdict)
    ensures result == WithFields(v, inputs, htmlLower)
  {
    var fields, pw, email, card, otp := DetectFields(inputs);
    result := v.(hasPasswordField := pw, hasEmailField := email, hasCardFields := card, hasOtpField := otp,
                 fieldsDetected := fields);
    var download := DetectDownload(htmlLower);
    result := RecordContentType(result, download);
  }

  /** The three content-type checks; each that applies overwrites the type and adds its risk. */
  method RecordContentType(v: ContentVerdict, download: bool) returns (result: ContentVerdict)
    ensures result == Detected(v, v.fieldsDetected, v.hasPasswordField, v.hasEmailField, v.hasCardFields,
                               v.hasOtpField, download)
  {
    var login, downloadButton, contentType, risk := v.hasLoginForm, v.hasDownloadButton, v.contentType, v.riskScore;
    if v.hasPasswordField {
      login, contentType, risk := true, Some(Login), risk + 30;
    }
    assert risk == v.riskScore + (if v.hasPasswordField then 30 else 0);
    ghost var ct1 := contentType;
    if v.hasCardFields {
      contentType, risk := Some(Payment), risk + 50;
    }
    assert risk == v.riskScore + (if v.hasPasswordField then 30 else 0) + (if v.hasCardFields then 50 else 0);
    assert contentType == if v.hasCardFields then Some(Payment) else ct1;
    if download {
      downloadButton, contentType, risk := true, Some(Download), risk + 25;
    }
    result := v.(hasLoginForm := login, hasDownloadButton := downloadButton, contentType := contentType, riskScore := risk);
    DetectedOwnFields(v, download);
  }

  /** With the fields the verdict already holds, the checks change only these four. */
  lemma DetectedOwnFields(v: ContentVerdict, download: bool)
    ensures Detected(v, v.fieldsDetected, v.hasPasswordField, v.hasEmailField, v.hasCardFields, v.hasOtpField, download)
      == v.(hasLoginForm := v.hasLoginForm || v.hasPasswordField, hasDownloadButton := v.hasDownloadButton || download,
            contentType := if download then Some(Download) else if v.hasCardFields then Some(Payment)
                           else if v.hasPasswordField then Some(Login) else v.contentType,
            riskScore := v.riskScore + (if v.hasPasswordField then 30 else 0) + (if v.hasCardFields then 50 else 0)
                         + (if download then 25 else 0))
  {
  }

  /** `any(x in html_lower for x in [...])` over the download tokens. */
  method DetectDownload(htmlLower: string) returns (found: bool)
    ensures found == OffersDownload(htmlLower)
  {
    found := false;
    var i := 0;
    while i < |DownloadTokens|
      invariant 0 <= i <= |DownloadTokens|
      invariant !found
      invariant forall q :: 0 <= q < i ==> !Contains(htmlLower, DownloadTokens[q])
    {
      if Contains(htmlLower, DownloadTokens[i]) {
        found := true;
        break;
      }
      i := i + 1;
    }
  }

  /** The form loop applied to the verdict; `raised` tells whether a form's urlparse raised. */
  method RecordForms(v: ContentVerdict, forms: seq<Form>, urlNetloc: Option<string>)
    returns (result: ContentVerdict, raised: bool)
    ensures result == WithForms(v, forms, urlNetloc) && raised == ScanForms(forms, urlNetloc).raised
  {
    var risk, flags, external;
    risk, flags, external, raised := CheckForms(forms, urlNetloc, v.riskScore, v.flags);
    result := v.(riskScore := risk, flags := flags, formActionExternal := v.formActionExternal || external);
  }
}

module LinkContentProps {
  import opened Wrappers
  import opened Strings
  import opened LinkTypes
  import opened LinkDescribe
  import opened LinkContent

  lemma NoteDistinct(fields: seq<FieldKind>, inp: Input, k: FieldKind)
    requires Distinct(fields)
    ensures Distinct(Note(fields, inp, k))
  {
  }

  lemma NoteMembers(fields: seq<FieldKind>, inp: Input, k: FieldKind)
    ensures forall x :: x in Note(fields, inp, k) <==> x in fields || (x == k && Hits(inp, k))
  {
  }

  /** One pass of the input loop body adds no label twice. */
  lemma NoteInputDistinct(fields: seq<FieldKind>, inp: Input)
    requires Distinct(fields)
    ensures Distinct(NoteInput(fields, inp))
  {
    var f1 := Note(fields, inp, Password);
    var f2 := Note(f1, inp, Email);
    var f3 := Note(f2, inp, Card);
    var f4 := Note(f3, inp, Otp);
    var f5 := Note(f4, inp, Phone);
    var f6 := Note(f5, inp, NationalId);
    NoteDistinct(fields, inp, Password);
    NoteDistinct(f1, inp, Email);
    NoteDistinct(f2, inp, Card);
    NoteDistinct(f3, inp, Otp);
    NoteDistinct(f4, inp, Phone);
    NoteDistinct(f5, inp, NationalId);
    NoteDistinct(f6, inp, Username);
  }

  /** One pass of the input loop body adds exactly the kinds the input shows. */
  lemma NoteInputMembers(fields: seq<FieldKind>, inp: Input)
    ensures forall x :: x in NoteInput(fields, inp) <==> x in fields || Hits(inp, x)
  {
    var f1 := Note(fields, inp, Password);
    var f2 := Note(f1, inp, Email);
    var f3 := Note(f2, inp, Card);
    var f4 := Note(f3, inp, Otp);
    var f5 := Note(f4, inp, Phone);
    var f6 := Note(f5, inp, NationalId);
    NoteMembers(fields, inp, Password);
    NoteMembers(f1, inp, Email);
    NoteMembers(f2, inp, Card);
    NoteMembers(f3, inp, Otp);
    NoteMembers(f4, inp, Phone);
    NoteMembers(f5, inp, NationalId);
    NoteMembers(f6, inp, Username);
  }

  /**
   * `fields_detected` holds no label twice, and holds a kind exactly when
   * some input of the page shows it.
   */
  lemma {:induction false} FieldsAreDistinctAndComplete(inputs: seq<Input>)
    ensures Distinct(FieldsOf(inputs))
    ensures forall k :: k in FieldsOf(inputs) <==> AnyHits(inputs, k)
    decreases |inputs|
  {
    if inputs != [] {
      var n := |inputs| - 1;
      FieldsAreDistinctAndComplete(inputs[..n]);
      NoteInputDistinct(FieldsOf(inputs[..n]), inputs[n]);
      NoteInputMembers(FieldsOf(inputs[..n]), inputs[n]);
      assert inputs[..n + 1] == inputs;
      forall k ensures AnyHits(inputs, k) <==> AnyHits(inputs[..n], k) || Hits(inputs[n], k) {
        AnyHitsExtend(inputs, n, k);
      }
    }
  }

  lemma {:induction false} DistinctWithin(s: seq<FieldKind>, kinds: set<FieldKind>)
    requires Distinct(s) && forall i :: 0 <= i < |s| ==> s[i] in kinds
    ensures |s| <= |kinds|
    decreases |s|
  {
    if s != [] {
      var rest := kinds - {s[0]};
      forall i | 0 <= i < |s[1..]| ensures s[1..][i] in rest {
        assert s[1..][i] == s[i + 1] && s[i + 1] != s[0];
      }
      DistinctWithin(s[1..], rest);
    }
  }

  /** There are seven labels, so `fields_detected` never holds more than seven entries. */
  lemma AtMostSevenFields(inputs: seq<Input>)
    ensures |FieldsOf(inputs)| <= 7
  {
    FieldsAreDistinctAndComplete(inputs);
    DistinctKindsAtMostSeven(FieldsOf(inputs));
  }

  lemma DistinctKindsAtMostSeven(f: seq<FieldKind>)
    requires Distinct(f)
    ensures |f| <= 7
  {
    var all := {Password, Email, Card, Otp, Phone, NationalId, Username};
    forall i | 0 <= i < |f| ensures f[i] in all {
      match f[i]
      case Password => case Email => case Card => case Otp => case Phone => case NationalId => case Username =>
    }
    DistinctWithin(f, all);
  }

  /** The position of each kind among the seven checks of the loop body. */
  function Rank(k: FieldKind): nat {
    match k
    case Password => 0
    case Email => 1
    case Card => 2
    case Otp => 3
    case Phone => 4
    case NationalId => 5
    case Username => 6
  }

  /**
   * Kind `a` was detected before kind `b`: some input shows `a` while no
   * earlier input shows `b`, and if that input shows `b` too, `a` is checked first.
   */
  predicate DetectedBefore(inputs: seq<Input>, a: FieldKind, b: FieldKind) {
    exists i :: 0 <= i < |inputs| && Hits(inputs[i], a) && !AnyHits(inputs[..i], b)
                && (Hits(inputs[i], b) ==> Rank(a) < Rank(b))
  }

  /** What one input appends to `prev`: kinds it shows that were missing, in check order, all below `bound`. */
  predicate AddedInOrder(prev: seq<FieldKind>, f: seq<FieldKind>, inp: Input, bound: nat) {
    && prev <= f
    && (forall p :: |prev| <= p < |f| ==> f[p] !in prev && Hits(inp, f[p]) && Rank(f[p]) < bound)
    && (forall p, q :: |prev| <= p < q < |f| ==> Rank(f[p]) < Rank(f[q]))
  }

  lemma NoteInOrder(prev: seq<FieldKind>, f: seq<FieldKind>, inp: Input, k: FieldKind)
    requires AddedInOrder(prev, f, inp, Rank(k))
    ensures AddedInOrder(prev, Note(f, inp, k), inp, Rank(k) + 1)
  {
    var g := Note(f, inp, k);
    if g != f {
      assert g == f + [k];
    }
  }

  lemma NoteInputInOrder(prev: seq<FieldKind>, inp: Input)
    ensures AddedInOrder(prev, NoteInput(prev, inp), inp, 7)
  {
    var f1 := Note(prev, inp, Password);
    var f2 := Note(f1, inp, Email);
    var f3 := Note(f2, inp, Card);
    var f4 := Note(f3, inp, Otp);
    var f5 := Note(f4, inp, Phone);
    var f6 := Note(f5, inp, NationalId);
    NoteInOrder(prev, prev, inp, Password);
    NoteInOrder(prev, f1, inp, Email);
    NoteInOrder(prev, f2, inp, Card);
    NoteInOrder(prev, f3, inp, Otp);
    NoteInOrder(prev, f4, inp, Phone);
    NoteInOrder(prev, f5, inp, NationalId);
    NoteInOrder(prev, f6, inp, Username);
  }

  lemma DetectedBeforeExtends(inputs: seq<Input>, n: nat, a: FieldKind, b: FieldKind)
    requires n <= |inputs| && DetectedBefore(inputs[..n], a, b)
    ensures DetectedBefore(inputs, a, b)
  {
    var i :| 0 <= i < n && Hits(inputs[..n][i], a) && !AnyHits(inputs[..n][..i], b)
             && (Hits(inputs[..n][i], b) ==> Rank(a) < Rank(b));
    assert inputs[..n][..i] == inputs[..i];
  }

  /** A kind found before the last input precedes one the last input adds. */
  lemma EarlierBeforeAdded(inputs: seq<Input>, a: FieldKind, b: FieldKind)
    requires |inputs| > 0
    requires AnyHits(inputs[..|inputs| - 1], a) && !AnyHits(inputs[..|inputs| - 1], b)
    ensures DetectedBefore(inputs, a, b)
  {
    var n := |inputs| - 1;
    var i :| 0 <= i < n && Hits(inputs[..n][i], a);
    assert inputs[..n][i] == inputs[i];
    forall j | 0 <= j < i
      ensures !Hits(inputs[..i][j], b)
    {
      assert inputs[..i][j] == inputs[..n][j];
    }
  }

  /** Two kinds the last input adds keep check order. */
  lemma AddedInCheckOrder(inputs: seq<Input>, a: FieldKind, b: FieldKind)
    requires |inputs| > 0
    requires Hits(inputs[|inputs| - 1], a) && Hits(inputs[|inputs| - 1], b) && Rank(a) < Rank(b)
    requires !AnyHits(inputs[..|inputs| - 1], b)
    ensures DetectedBefore(inputs, a, b)
  {
  }

  /** Every kind of `fields` was detected before each kind listed after it. */
  predicate InDetectionOrder(inputs: seq<Input>, fields: seq<FieldKind>) {
    forall p, q :: 0 <= p < q < |fields| ==> DetectedBefore(inputs, fields[p], fields[q])
  }

  /** One pair of positions of the field list, given the order already holds for all inputs but the last. */
  lemma OrderStep(inputs: seq<Input>, p: nat, q: nat)
    requires |inputs| > 0
    requires InDetectionOrder(inputs[..|inputs| - 1], FieldsOf(inputs[..|inputs| - 1]))
    requires p < q < |FieldsOf(inputs)|
    ensures DetectedBefore(inputs, FieldsOf(inputs)[p], FieldsOf(inputs)[q])
  {
    var n := |inputs| - 1;
    var prev := FieldsOf(inputs[..n]);
    assert inputs[..n + 1] == inputs;
    var fields := NoteInput(prev, inputs[n]);
    assert fields == FieldsOf(inputs);
    NoteInputInOrder(prev, inputs[n]);
    FieldsAreDistinctAndComplete(inputs[..n]);
    if q < |prev| {
      assert DetectedBefore(inputs[..n], prev[p], prev[q]);
      DetectedBeforeExtends(inputs, n, prev[p], prev[q]);
      assert prev[p] == fields[p] && prev[q] == fields[q];
    } else if p < |prev| {
      assert prev[p] == fields[p];
      assert fields[q] !in prev;
      EarlierBeforeAdded(inputs, fields[p], fields[q]);
    } else {
      AddedInCheckOrder(inputs, fields[p], fields[q]);
    }
  }

  /**
   * `fields_detected` lists the kinds in the order they were first detected:
   * by the first input showing them, and within one input in check order.
   */
  lemma {:induction false} FieldsInDetectionOrder(inputs: seq<Input>)
    ensures InDetectionOrder(inputs, FieldsOf(inputs))
    decreases |inputs|
  {
    if inputs != [] {
      FieldsInDetectionOrder(inputs[..|inputs| - 1]);
      forall p, q | 0 <= p < q < |FieldsOf(inputs)|
        ensures DetectedBefore(inputs, FieldsOf(inputs)[p], FieldsOf(inputs)[q])
      {
        OrderStep(inputs, p, q);
      }
    }
  }

  /** The verdict's booleans agree with the field list for the four kinds that have one. */
  lemma FlagsAgreeWithFields(url: string, urlNetloc: Option<string>, outcome: FetchOutcome)
    ensures var v := ContentOf(url, urlNetloc, outcome);
      && (v.hasPasswordField <==> Password in v.fieldsDetected)
      && (v.hasEmailField <==> Email in v.fieldsDetected)
      && (v.hasCardFields <==> Card in v.fieldsDetected)
      && (v.hasOtpField <==> Otp in v.fieldsDetected)
  {
    if outcome.Response? && outcome.status == 200 {
      var inputs := outcome.page.inputs;
      ResponseKeeps(url, urlNetloc, outcome.finalUrl, outcome.finalHost, outcome.page);
      ClassifiedFields(url, urlNetloc, outcome.finalUrl, outcome.finalHost, outcome.page);
      FieldsAreDistinctAndComplete(inputs);
    }
  }

  /** A page has a login form exactly when it has a password field. */
  lemma LoginIffPassword(url: string, urlNetloc: Option<string>, outcome: FetchOutcome)
    ensures ContentOf(url, urlNetloc, outcome).hasLoginForm == ContentOf(url, urlNetloc, outcome).hasPasswordField
  {
    if outcome.Response? && outcome.status == 200 {
      ResponseKeeps(url, urlNetloc, outcome.finalUrl, outcome.finalHost, outcome.page);
      ClassifiedFacts(url, urlNetloc, outcome.finalUrl, outcome.finalHost, outcome.page);
    }
  }

  /**
   * The content type is `download` when the body mentions a download, else
   * `payment` when a card field is present, else `login` when a password
   * field is, else none.
   */
  lemma ContentTypePrecedence(url: string, urlNetloc: Option<string>, outcome: FetchOutcome)
    ensures var v := ContentOf(url, urlNetloc, outcome);
      v.contentType == (if v.hasDownloadButton then Some(Download)
                        else if v.hasCardFields then Some(Payment)
                        else if v.hasPasswordField then Some(Login)
                        else None)
  {
    if outcome.Response? && outcome.status == 200 {
      ResponseKeeps(url, urlNetloc, outcome.finalUrl, outcome.finalHost, outcome.page);
      ClassifiedFacts(url, urlNetloc, outcome.finalUrl, outcome.finalHost, outcome.page);
    }
  }

  /** The classified page's field list and booleans are those of its inputs, its download marker that of its body. */
  lemma ClassifiedFields(url: string, urlNetloc: Option<string>, finalUrl: string, finalHost: string, page: Page)
    ensures var c := Classified(url, urlNetloc, finalUrl, finalHost, page);
      && c.fieldsDetected == FieldsOf(page.inputs)
      && c.hasPasswordField == AnyHits(page.inputs, Password) && c.hasEmailField == AnyHits(page.inputs, Email)
      && c.hasCardFields == AnyHits(page.inputs, Card) && c.hasOtpField == AnyHits(page.inputs, Otp)
      && c.hasDownloadButton == OffersDownload(page.htmlLower)
  {
  }

  /**
   * For a page that was reached, the kind of page is read off the page itself:
   * download when the body names a download token, else payment when an input
   * asks for a card, else login when one asks for a password, else none.
   */
  lemma ReachedPageKind(url: string, urlNetloc: Option<string>, finalUrl: string, finalHost: string, page: Page)
    ensures var v := ContentOf(url, urlNetloc, Response(200, finalUrl, finalHost, page));
      && v.hasDownloadButton == OffersDownload(page.htmlLower)
      && v.hasCardFields == AnyHits(page.inputs, Card) && v.hasPasswordField == AnyHits(page.inputs, Password)
      && v.contentType == (if OffersDownload(page.htmlLower) then Some(Download)
                           else if AnyHits(page.inputs, Card) then Some(Payment)
                           else if AnyHits(page.inputs, Password) then Some(Login)
                           else None)
  {
    ResponseKeeps(url, urlNetloc, finalUrl, finalHost, page);
    ClassifiedFields(url, urlNetloc, finalUrl, finalHost, page);
    ContentTypePrecedence(url, urlNetloc, Response(200, finalUrl, finalHost, page));
  }

  /** The classified page before the cap: content type, risk, flags and the cross-host marker. */
  lemma ClassifiedFacts(url: string, urlNetloc: Option<string>, finalUrl: string, finalHost: string, page: Page)
    ensures var c := Classified(url, urlNetloc, finalUrl, finalHost, page);
      var scan := ScanForms(page.forms, urlNetloc);
      && c.contentType == (if c.hasDownloadButton then Some(Download)
                           else if c.hasCardFields then Some(Payment)
                           else if c.hasPasswordField then Some(Login)
                           else None)
      && c.riskScore == PageRisk(finalUrl != url, c.hasPasswordField, c.hasCardFields, c.hasDownloadButton,
                                 scan.external)
      && c.flags == (if finalUrl != url then [RedirectedTo(finalHost)] else []) + Repeat(ExternalForm, scan.external)
      && c.formActionExternal == (scan.external > 0)
      && c.hasLoginForm == c.hasPasswordField
  {
    var reached := Reached(url, finalUrl, finalHost, page.title);
    var fields := WithFields(reached, page.inputs, page.htmlLower);
    assert reached.contentType == None && !reached.hasDownloadButton && !reached.formActionExternal
      && !reached.hasLoginForm;
    assert reached.riskScore == 15 * Indicator(finalUrl != url);
  }

  lemma {:induction false} ScanFormsRaises(forms: seq<Form>, urlNetloc: Option<string>)
    ensures ScanForms(forms, urlNetloc).raised <==> exists i :: 0 <= i < |forms| && Raises(forms[i], urlNetloc)
    decreases |forms|
  {
    if forms != [] {
      var rest := forms[1..];
      ScanFormsRaises(rest, urlNetloc);
      if exists i :: 0 <= i < |rest| && Raises(rest[i], urlNetloc) {
        var i :| 0 <= i < |rest| && Raises(rest[i], urlNetloc);
        assert Raises(forms[i + 1], urlNetloc);
      }
      if exists i :: 0 <= i < |forms| && Raises(forms[i], urlNetloc) {
        var i :| 0 <= i < |forms| && Raises(forms[i], urlNetloc);
        if i > 0 {
          assert Raises(rest[i - 1], urlNetloc);
        }
      }
    }
  }

  lemma {:induction false} ExternalFrom(forms: seq<Form>, urlNetloc: Option<string>, k: nat)
    requires k <= |forms| && !ScanForms(forms[k..], urlNetloc).raised
    ensures ScanForms(forms[k..], urlNetloc).external
            == |set i | k <= i < |forms| && PostsElsewhere(forms[i], urlNetloc)|
    decreases |forms| - k
  {
    var here := set i | k <= i < |forms| && PostsElsewhere(forms[i], urlNetloc);
    if k == |forms| {
      assert here == {};
    } else {
      assert forms[k..][0] == forms[k] && forms[k..][1..] == forms[k + 1..];
      ExternalFrom(forms, urlNetloc, k + 1);
      var later := set i | k + 1 <= i < |forms| && PostsElsewhere(forms[i], urlNetloc);
      if PostsElsewhere(forms[k], urlNetloc) {
        assert here == later + {k};
      } else {
        assert here == later;
      }
    }
  }

  /**
   * The form loop raises exactly when some qualifying form cannot be parsed,
   * and when it does not raise it counts every qualifying form that posts
   * to another netloc.
   */
  lemma ScanFormsCounts(forms: seq<Form>, urlNetloc: Option<string>)
    ensures ScanForms(forms, urlNetloc).raised <==> exists i :: 0 <= i < |forms| && Raises(forms[i], urlNetloc)
    ensures !ScanForms(forms, urlNetloc).raised ==>
      ScanForms(forms, urlNetloc).external == |set i | 0 <= i < |forms| && PostsElsewhere(forms[i], urlNetloc)|
  {
    ScanFormsRaises(forms, urlNetloc);
    assert forms[0..] == forms;
    if !ScanForms(forms, urlNetloc).raised {
      ExternalFrom(forms, urlNetloc, 0);
    }
  }

  /** The verdict for a 200 response in terms of the classified page, before the texts are added. */
  lemma ResponseShape(url: string, urlNetloc: Option<string>, finalUrl: string, finalHost: string, page: Page)
    ensures var v := ContentOf(url, urlNetloc, Response(200, finalUrl, finalHost, page));
      var c := Classified(url, urlNetloc, finalUrl, finalHost, page);
      var raised := ScanForms(page.forms, urlNetloc).raised;
      && v.riskScore == Min(c.riskScore, 100)
      && v.flags == c.flags + (if raised then [Unreachable] else [])
      && v.arabicDescription == (if raised then "" else BuildArabicDescription(c))
      && v.contentSummary == (if raised then "" else BuildContentSummary(c))
      && v == c.(riskScore := v.riskScore, flags := v.flags, arabicDescription := v.arabicDescription,
                 contentSummary := v.contentSummary)
  {
    var c := Classified(url, urlNetloc, finalUrl, finalHost, page);
    var raised := ScanForms(page.forms, urlNetloc).raised;
    assert ContentOf(url, urlNetloc, Response(200, finalUrl, finalHost, page)) == Finished(c, raised);
    assert c.arabicDescription == "" && c.contentSummary == "";
    FinishedShape(c, raised);
  }

  lemma FinishedShape(c: ContentVerdict, raised: bool)
    requires c.arabicDescription == "" && c.contentSummary == ""
    ensures var v := Finished(c, raised);
      && v.riskScore == Min(c.riskScore, 100)
      && v.flags == c.flags + (if raised then [Unreachable] else [])
      && v.arabicDescription == (if raised then "" else BuildArabicDescription(c))
      && v.contentSummary == (if raised then "" else BuildContentSummary(c))
      && v == c.(riskScore := v.riskScore, flags := v.flags, arabicDescription := v.arabicDescription,
                 contentSummary := v.contentSummary)
  {
  }

  /** The fields of a 200 verdict that the cap and the texts leave as the classification set them. */
  lemma ResponseKeeps(url: string, urlNetloc: Option<string>, finalUrl: string, finalHost: string, page: Page)
    ensures var v := ContentOf(url, urlNetloc, Response(200, finalUrl, finalHost, page));
      var c := Classified(url, urlNetloc, finalUrl, finalHost, page);
      && v.riskScore == Min(c.riskScore, 100)
      && v.hasPasswordField == c.hasPasswordField && v.hasCardFields == c.hasCardFields
      && v.hasDownloadButton == c.hasDownloadButton && v.hasLoginForm == c.hasLoginForm
      && v.contentType == c.contentType && v.formActionExternal == c.formActionExternal
      && v.hasEmailField == c.hasEmailField && v.hasOtpField == c.hasOtpField
      && v.fieldsDetected == c.fieldsDetected
  {
    ResponseShape(url, urlNetloc, finalUrl, finalHost, page);
  }

  /**
   * For a page that answered 200, the risk is the capped sum of +15 for a
   * redirect, +30 for a password field, +50 for a card field, +25 for a
   * download mention and +30 for every form posting elsewhere.
   */
  lemma ContentRiskFormula(url: string, urlNetloc: Option<string>, finalUrl: string, finalHost: string,
                           page: Page)
    ensures var v := ContentOf(url, urlNetloc, Response(200, finalUrl, finalHost, page));
      v.riskScore == Min(PageRisk(finalUrl != url, v.hasPasswordField, v.hasCardFields, v.hasDownloadButton,
                                  ScanForms(page.forms, urlNetloc).external), 100)
  {
    ResponseKeeps(url, urlNetloc, finalUrl, finalHost, page);
    ClassifiedFacts(url, urlNetloc, finalUrl, finalHost, page);
  }

  /**
   * For a page that answered 200, the flags are the redirect flag, one flag
   * per form posting elsewhere, then the unreachable flag when a form raised;
   * when no form raises, the forms counted are all the page's qualifying
   * cross-host forms.
   */
  lemma ContentFlagsFormula(url: string, urlNetloc: Option<string>, finalUrl: string, finalHost: string,
                            page: Page)
    ensures var v := ContentOf(url, urlNetloc, Response(200, finalUrl, finalHost, page));
      var scan := ScanForms(page.forms, urlNetloc);
      && v.flags == (if finalUrl != url then [RedirectedTo(finalHost)] else []) + Repeat(ExternalForm, scan.external)
                    + (if scan.raised then [Unreachable] else [])
      && v.formActionExternal == (scan.external > 0)
      && (!scan.raised ==> scan.external == |set i | 0 <= i < |page.forms| && PostsElsewhere(page.forms[i], urlNetloc)|)
  {
    ScanFormsCounts(page.forms, urlNetloc);
    ResponseShape(url, urlNetloc, finalUrl, finalHost, page);
    ClassifiedFacts(url, urlNetloc, finalUrl, finalHost, page);
  }

  /**
   * The uncapped page risk: +15 for a redirect, +30 for a password field,
   * +50 for a card field, +25 for a download mention and +30 per form
   * posting elsewhere.
   */
  function PageRisk(redirected: bool, password: bool, card: bool, download: bool, external: nat): int {
    15 * Indicator(redirected) + 30 * Indicator(password) + 50 * Indicator(card) + 25 * Indicator(download)
      + 30 * external
  }

  /** Whatever the fetch did, the content risk lies in [0, 100]. */
  lemma ContentRiskIsBounded(url: string, urlNetloc: Option<string>, outcome: FetchOutcome)
    ensures 0 <= ContentOf(url, urlNetloc, outcome).riskScore <= 100
  {
    if outcome.Response? && outcome.status == 200 {
      ResponseShape(url, urlNetloc, outcome.finalUrl, outcome.finalHost, outcome.page);
    }
  }

  /**
   * When a form's action cannot be parsed the exception handler runs: the
   * unreachable flag is the last flag and the descriptions are never built.
   */
  lemma RaisingFormSkipsDescriptions(url: string, urlNetloc: Option<string>, finalUrl: string, finalHost: string,
                                     page: Page, i: nat)
    requires i < |page.forms| && Raises(page.forms[i], urlNetloc)
    ensures var v := ContentOf(url, urlNetloc, Response(200, finalUrl, finalHost, page));
      |v.flags| > 0 && v.flags[|v.flags| - 1] == Unreachable && v.arabicDescription == "" && v.contentSummary == ""
  {
    ScanFormsRaises(page.forms, urlNetloc);
    ReachedPageTexts(url, urlNetloc, finalUrl, finalHost, page);
  }

  /** When every qualifying form parses, a reached page gets both texts and no unreachable flag. */
  lemma ParsedFormsGetDescriptions(url: string, urlNetloc: Option<string>, finalUrl: string, finalHost: string,
                                   page: Page)
    requires forall i :: 0 <= i < |page.forms| ==> !Raises(page.forms[i], urlNetloc)
    ensures var v := ContentOf(url, urlNetloc, Response(200, finalUrl, finalHost, page));
      v.arabicDescription != "" && v.contentSummary != "" && Unreachable !in v.flags
  {
    ScanFormsRaises(page.forms, urlNetloc);
    ReachedPageTexts(url, urlNetloc, finalUrl, finalHost, page);
  }

  /** The texts and the unreachable flag of a reached page follow whether the form loop raised. */
  lemma ReachedPageTexts(url: string, urlNetloc: Option<string>, finalUrl: string, finalHost: string, page: Page)
    ensures var v := ContentOf(url, urlNetloc, Response(200, finalUrl, finalHost, page));
      if ScanForms(page.forms, urlNetloc).raised then
        |v.flags| > 0 && v.flags[|v.flags| - 1] == Unreachable && v.arabicDescription == "" && v.contentSummary == ""
      else
        v.arabicDescription != "" && v.contentSummary != "" && Unreachable !in v.flags
  {
    var c := Classified(url, urlNetloc, finalUrl, finalHost, page);
    var raised := ScanForms(page.forms, urlNetloc).raised;
    assert ContentOf(url, urlNetloc, Response(200, finalUrl, finalHost, page)) == Finished(c, raised);
    ClassifiedFacts(url, urlNetloc, finalUrl, finalHost, page);
    assert c.arabicDescription == "" && c.contentSummary == "";
    assert Unreachable !in c.flags;
    FinishedTexts(c, raised);
  }

  /** The end of the analysis adds the unreachable flag, or else both texts, never both. */
  lemma FinishedTexts(c: ContentVerdict, raised: bool)
    requires c.arabicDescription == "" && c.contentSummary == "" && Unreachable !in c.flags
    ensures var v := Finished(c, raised);
      if raised then
        |v.flags| > 0 && v.flags[|v.flags| - 1] == Unreachable && v.arabicDescription == "" && v.contentSummary == ""
      else
        v.arabicDescription != "" && v.contentSummary != "" && Unreachable !in v.flags
  {
    if !raised {
      DescriptionIsNeverEmpty(c);
    }
  }

  lemma DescriptionIsNeverEmpty(a: ContentVerdict)
    ensures BuildArabicDescription(a) != ""
  {
    DescriptionFallsBackIffNothingApplies(a);
    if Parts(a) != [] {
      PartsStartOtherwise(a);
      JoinHead(Parts(a));
    }
  }

  /** A redirect is recorded exactly when a 200 response ended on another URL string. */
  lemma RedirectIffFinalUrlDiffers(url: string, urlNetloc: Option<string>, outcome: FetchOutcome)
    ensures var v := ContentOf(url, urlNetloc, outcome);
      v.redirected <==> outcome.Response? && outcome.status == 200 && outcome.finalUrl != url
  {
  }
}
