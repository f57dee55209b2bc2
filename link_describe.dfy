/**
 * `build_arabic_description` and `build_content_summary`: the two texts the
 * content analyzer writes about a page, each a priority-ordered choice over
 * the verdict's fields.
 */
module LinkDescribe {
  import opened Wrappers
  import opened Strings
  import opened LinkTypes

  const OrdinaryPageText: string := "✅ صفحة عادية بدون طلب بيانات حساسة"
  const UnreachableText: string := "❌ تعذر الوصول للرابط"

  /** The sentence naming the kind of page, when the verdict has one. */
  function TypePart(ct: Option<ContentType>): seq<string> {
    match ct
    case None => []
    case Some(Login) => ["📄 هذا الرابط يفتح صفحة تسجيل دخول"]
    case Some(Payment) => ["💳 هذا الرابط يفتح صفحة دفع/بيانات بنكية"]
    case Some(Download) => ["⬇️ هذا الرابط يفتح صفحة تحميل"]
  }

  /** Each item as an indented bullet line. */
  function Bullets(items: seq<string>): (r: seq<string>)
    ensures |r| == |items|
  {
    seq(|items|, i requires 0 <= i < |items| => "  • " + items[i])
  }

  function FieldNames(fields: seq<FieldKind>): (r: seq<string>)
    ensures |r| == |fields|
  {
    seq(|fields|, i requires 0 <= i < |fields| => FieldLabel(fields[i]))
  }

  function FieldsPart(fields: seq<FieldKind>): seq<string> {
    if fields == [] then [] else ["\n\n🔍 الصفحة تطلب منك:\n" + Join("\n", Bullets(FieldNames(fields)))]
  }

  /** The warnings, in the order the builder checks them. */
  function Warnings(a: ContentVerdict): seq<string> {
    (if a.hasPasswordField then ["يطلب كلمة مرورك"] else [])
    + (if a.hasCardFields then ["يطلب بيانات بطاقتك البنكية!"] else [])
    + (if a.redirected then ["تم توجيهك لموقع آخر"] else [])
    + (if a.formActionExternal then ["البيانات ترسل لموقع خارجي!"] else [])
  }

  function WarningsPart(a: ContentVerdict): seq<string> {
    var w := Warnings(a);
    if w == [] then [] else ["\n\n⚠️ تحذيرات:\n" + Join("\n", Bullets(w))]
  }

  /** An empty title is false in Python, so it adds nothing. */
  function TitlePart(title: Option<string>): seq<string> {
    if title.Some? && title.value != "" then ["\n\n📌 عنوان الصفحة: " + title.value] else []
  }

  function Parts(a: ContentVerdict): seq<string> {
    TypePart(a.contentType) + FieldsPart(a.fieldsDetected) + WarningsPart(a) + TitlePart(a.pageTitle)
  }

  /** `build_arabic_description(analysis)` */
  function BuildArabicDescription(a: ContentVerdict): string {
    var parts := Parts(a);
    if parts == [] then (if a.accessible then OrdinaryPageText else UnreachableText)
    else Join("", parts)
  }

  /** Nothing the description reports applies to the page. */
  predicate NothingToReport(a: ContentVerdict) {
    && a.contentType.None?
    && a.fieldsDetected == []
    && !a.hasPasswordField && !a.hasCardFields && !a.redirected && !a.formActionExternal
    && (a.pageTitle.None? || a.pageTitle.value == "")
  }

  lemma JoinHead(parts: seq<string>)
    requires parts != [] && parts[0] != []
    ensures Join("", parts) != [] && Join("", parts)[0] == parts[0][0]
    decreases |parts|
  {
  }

  /** A part opens with a line break or with one of the page-kind icons. */
  predicate Marked(p: string) {
    p != [] && (p[0] == '\n' || p[0] == '📄' || p[0] == '💳' || p[0] == '⬇')
  }

  lemma TypePartMarked(ct: Option<ContentType>)
    ensures forall k :: 0 <= k < |TypePart(ct)| ==> Marked(TypePart(ct)[k])
  {
  }

  lemma LaterPartsMarked(a: ContentVerdict)
    ensures var rest := FieldsPart(a.fieldsDetected) + WarningsPart(a) + TitlePart(a.pageTitle);
      forall k :: 0 <= k < |rest| ==> Marked(rest[k])
  {
  }

  lemma PartsStartOtherwise(a: ContentVerdict)
    requires Parts(a) != []
    ensures Parts(a)[0] != [] && Parts(a)[0][0] != OrdinaryPageText[0] && Parts(a)[0][0] != UnreachableText[0]
  {
    var tp := TypePart(a.contentType);
    var rest := FieldsPart(a.fieldsDetected) + WarningsPart(a) + TitlePart(a.pageTitle);
    assert Parts(a) == tp + rest;
    TypePartMarked(a.contentType);
    LaterPartsMarked(a);
    assert Marked(Parts(a)[0]);
    assert OrdinaryPageText[0] == '✅' && UnreachableText[0] == '❌';
  }

  /**
   * The description is one of the two fixed texts exactly when nothing
   * applies; which one depends only on whether the page was reached.
   */
  lemma DescriptionFallsBackIffNothingApplies(a: ContentVerdict)
    ensures var r := BuildArabicDescription(a);
      && ((r == OrdinaryPageText || r == UnreachableText) <==> NothingToReport(a))
      && (NothingToReport(a) ==> (r == OrdinaryPageText <==> a.accessible))
  {
    var parts := Parts(a);
    if parts != [] {
      PartsStartOtherwise(a);
      JoinHead(parts);
    } else {
      assert TypePart(a.contentType) == [] && FieldsPart(a.fieldsDetected) == [] && WarningsPart(a) == [];
      assert Warnings(a) == [];
    }
  }

  const CardSummary: string := "🚨 صفحة تطلب بيانات بطاقة بنكية!"
  const LoginSummary: string := "⚠️ صفحة تسجيل دخول تطلب إيميل وكلمة مرور"
  const PasswordSummary: string := "⚠️ صفحة تطلب كلمة مرور"
  const OtpSummary: string := "⚠️ صفحة تطلب رمز تحقق OTP"
  const DownloadSummary: string := "⬇️ صفحة تحميل ملفات"
  const RedirectSummary: string := "↪️ تم التوجيه لموقع آخر"
  const OrdinarySummary: string := "✅ صفحة عادية"
  const UnknownSummary: string := "❓ تعذر الفحص"

  /** `build_content_summary(analysis)` */
  function BuildContentSummary(a: ContentVerdict): (r: string)
    ensures r != ""
  {
    if a.hasCardFields then CardSummary
    else if a.hasPasswordField && a.hasEmailField then LoginSummary
    else if a.hasPasswordField then PasswordSummary
    else if a.hasOtpField then OtpSummary
    else if a.hasDownloadButton then DownloadSummary
    else if a.redirected then RedirectSummary
    else if a.accessible then OrdinarySummary
    else UnknownSummary
  }

  /**
   * Each summary text is returned exactly when its condition is the first in
   * the priority order that holds: card, password with e-mail, password, OTP,
   * download, redirect, reachable, and otherwise the unknown text.
   */
  lemma SummaryFollowsPriority(a: ContentVerdict)
    ensures var r := BuildContentSummary(a);
      var card, pw, email, otp := a.hasCardFields, a.hasPasswordField, a.hasEmailField, a.hasOtpField;
      && (r == CardSummary <==> card)
      && (r == LoginSummary <==> !card && pw && email)
      && (r == PasswordSummary <==> !card && pw && !email)
      && (r == OtpSummary <==> !card && !pw && otp)
      && (r == DownloadSummary <==> !card && !pw && !otp && a.hasDownloadButton)
      && (r == RedirectSummary <==> !card && !pw && !otp && !a.hasDownloadButton && a.redirected)
      && (r == OrdinarySummary <==> !card && !pw && !otp && !a.hasDownloadButton && !a.redirected && a.accessible)
      && (r == UnknownSummary <==> !card && !pw && !otp && !a.hasDownloadButton && !a.redirected && !a.accessible)
  {
    assert CardSummary[0] != LoginSummary[0] && CardSummary[0] != DownloadSummary[0];
    assert |LoginSummary| != |PasswordSummary| && |LoginSummary| != |OtpSummary|;
    assert |PasswordSummary| != |OtpSummary|;
  }
}
