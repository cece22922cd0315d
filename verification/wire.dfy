/** The wire vocabulary of the Pastebin API: endpoints, form field names,
    option tags, expiry tokens and visibility codes, and the shape of one
    outgoing request. */
module Wire {

  import opened Wrappers

  // Endpoints
  const LoginUrl := "https://pastebin.com/api/api_login.php"
  const RawApiUrl := "https://pastebin.com/api/api_raw.php"
  const PostUrl := "https://pastebin.com/api/api_post.php"
  /** Scheme and host of the public raw endpoint; its path part is "/raw". */
  const RawOrigin := "https://pastebin.com"
  const RawBasePath := "/raw"

  // Form field names
  const DevKeyField := "api_dev_key"
  const OptionField := "api_option"
  const PasteCodeField := "api_paste_code"
  const PasteExpireField := "api_paste_expire_date"
  const PasteFormatField := "api_paste_format"
  const PasteKeyField := "api_paste_key"
  const PasteNameField := "api_paste_name"
  const PastePrivateField := "api_paste_private"
  const ResultsLimitField := "api_results_limit"
  const UserKeyField := "api_user_key"
  const UserNameField := "api_user_name"
  const UserPasswordField := "api_user_password"

  // Option tags sent in api_option
  const OptionDelete := "delete"
  const OptionList := "list"
  const OptionPaste := "paste"
  const OptionShowPaste := "show_paste"
  const OptionUserDetails := "userdetails"

  datatype Method = Get | Post

  /** One HTTP request: POST requests carry their form fields in the body,
      the GET request carries none. */
  datatype Request = Request(verb: Method, endpoint: string, fields: map<string, string>)

  /** The expiry directives the service understands. */
  datatype Expiry =
    | Never | TenMinutes | OneHour | OneDay | OneWeek
    | TwoWeeks | OneMonth | SixMonths | OneYear

  function ExpiryToken(e: Expiry): string
  {
    match e
    case Never => "N"
    case TenMinutes => "10M"
    case OneHour => "1H"
    case OneDay => "1D"
    case OneWeek => "1W"
    case TwoWeeks => "2W"
    case OneMonth => "1M"
    case SixMonths => "6M"
    case OneYear => "1Y"
  }

  /** Reads an expiry token back; any other text is not a directive. */
  function ParseExpiry(s: string): Option<Expiry>
  {
    if s == "N" then Some(Never)
    else if s == "10M" then Some(TenMinutes)
    else if s == "1H" then Some(OneHour)
    else if s == "1D" then Some(OneDay)
    else if s == "1W" then Some(OneWeek)
    else if s == "2W" then Some(TwoWeeks)
    else if s == "1M" then Some(OneMonth)
    else if s == "6M" then Some(SixMonths)
    else if s == "1Y" then Some(OneYear)
    else None
  }

  /** The token table is a bijection between directives and their tokens. */
  lemma ExpiryTokenRoundTrip(e: Expiry, s: string)
    ensures ParseExpiry(ExpiryToken(e)) == Some(e)
    ensures ParseExpiry(s) == Some(e) <==> s == ExpiryToken(e)
  {
  }

  /** Paste visibility, numbered in declaration order from zero. */
  datatype Visibility = Public | Unlisted | Private

  function VisibilityCode(v: Visibility): (code: int)
    ensures 0 <= code <= 2
  {
    match v
    case Public => 0
    case Unlisted => 1
    case Private => 2
  }

  function VisibilityOfCode(code: int): (v: Option<Visibility>)
    ensures v.Some? <==> 0 <= code <= 2
    ensures v.Some? ==> VisibilityCode(v.value) == code
  {
    if code == 0 then Some(Public)
    else if code == 1 then Some(Unlisted)
    else if code == 2 then Some(Private)
    else None
  }

  lemma VisibilityCodeRoundTrip(v: Visibility)
    ensures VisibilityOfCode(VisibilityCode(v)) == Some(v)
  {
  }
}
