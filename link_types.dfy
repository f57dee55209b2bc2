/**
 * The records the link scanner produces: the flags it raises, the field kinds
 * it detects on a page, and the syntax and content verdicts for one URL.
 */
module LinkTypes {
  import opened Wrappers

  /** One warning the scanner attaches to a URL. */
  datatype Flag =
    | SuspiciousTld(tld: string)
    | Shortened
    | Impersonates(brand: string)
    | NoHttps
    | IpHost
    | RedirectedTo(host: string)
    | ExternalForm
    | HttpError(status: int)
    | TooSlow
    | Unreachable

  /** 1 when `b` holds, else 0: how many times a check that fires on `b` counts. */
  function Indicator(b: bool): nat {
    if b then 1 else 0
  }

  /** The seven kinds of input field the content analyzer looks for. */
  datatype FieldKind = Password | Email | Card | Otp | Phone | NationalId | Username

  /** The entry `fields_detected` holds for each kind. */
  function FieldLabel(k: FieldKind): string {
    match k
    case Password => "🔑 كلمة مرور"
    case Email => "📧 بريد إلكتروني"
    case Card => "💳 بيانات بطاقة بنكية"
    case Otp => "🔢 رمز تحقق OTP"
    case Phone => "📱 رقم جوال"
    case NationalId => "🪪 رقم هوية"
    case Username => "👤 اسم مستخدم"
  }

  /** `content_type`: `"login"`, `"payment"` or `"download"` (absent: `None`). */
  datatype ContentType = Login | Payment | Download

  /** The dictionary `analyze_url_syntax` returns. */
  datatype SyntaxVerdict = SyntaxVerdict(
    url: string,
    riskScore: int,
    flags: seq<Flag>,
    domain: string,
    isShortened: bool,
    isSuspiciousTld: bool,
    impersonating: Option<string>)

  /** The dictionary `fetch_and_analyze_content` returns (`page_description` is always `None` and left out). */
  datatype ContentVerdict = ContentVerdict(
    url: string,
    accessible: bool,
    finalUrl: Option<string>,
    redirected: bool,
    pageTitle: Option<string>,
    contentType: Option<ContentType>,
    hasLoginForm: bool,
    hasPasswordField: bool,
    hasEmailField: bool,
    hasCardFields: bool,
    hasOtpField: bool,
    hasDownloadButton: bool,
    formActionExternal: bool,
    fieldsDetected: seq<FieldKind>,
    arabicDescription: string,
    contentSummary: string,
    riskScore: int,
    flags: seq<Flag>)

  /** The verdict `fetch_and_analyze_content` starts from, before anything is fetched. */
  function InitialContent(url: string): ContentVerdict {
    ContentVerdict(url, false, None, false, None, None, false, false, false, false, false, false,
                   false, [], "", "", 0, [])
  }
}
