/** The Pastebin client: a value holding the two keys, one request builder
    per API call, the result-limit rule, and the calls themselves with the
    network supplied as an oracle that answers each request. */
module Pastebin {

  import opened Wrappers
  import opened Wire
  import opened Responses
  import opened Protocol
  import Decimal
  import Paths

  /** The developer key identifies the application; the user key, obtained
      through GetUserKey, identifies the account. */
  datatype Pastebin = Pastebin(developerKey: string, userKey: string)

  const DefaultResultsLimit := 50
  const MaxResultsLimit := 1000
  const LimitMessage := "Results limit must be in range [1, 1000]"

  /** The exchange with the network: the service's answer to each request. */
  type Server = Request -> Reply

  /** A finished call: the requests it sent, in order, and what it returned. */
  datatype Call = Call(sent: seq<Request>, result: Result<string, Error>)

  /** api_dev_key carries the client's developer key. */
  predicate Signed(p: Pastebin, r: Request)
  {
    DevKeyField in r.fields && r.fields[DevKeyField] == p.developerKey
  }

  /** Exchanges a username and password for a user key. */
  function GetUserKey(p: Pastebin, username: string, password: string): (r: Request)
    ensures r.verb == Post && r.endpoint == LoginUrl && Signed(p, r)
    ensures UserKeyField !in r.fields && OptionField !in r.fields
    ensures Interpret(r) == Some(Command(p.developerKey, None, Login(username, password)))
  {
    Request(Post, LoginUrl, map[
      DevKeyField := p.developerKey,
      UserNameField := username,
      UserPasswordField := password])
  }

  /** Uploads a paste; a guest paste is sent without the user key. */
  function CreateNewPaste(p: Pastebin, pasteText: string, guest: bool, pasteTitle: string,
                          pasteFormat: string, expireDate: string, pasteMod: int): (r: Request)
    ensures r.verb == Post && r.endpoint == PostUrl && Signed(p, r)
    ensures guest ==> UserKeyField !in r.fields
    ensures !guest ==> UserKeyField in r.fields && r.fields[UserKeyField] == p.userKey
    ensures OptionField in r.fields && r.fields[OptionField] == OptionPaste
    ensures PastePrivateField in r.fields && r.fields[PastePrivateField] == Decimal.Itoa(pasteMod)
    ensures Interpret(r) == Some(Command(p.developerKey, if guest then None else Some(p.userKey),
                                         NewPaste(pasteText, guest, pasteTitle, pasteFormat, expireDate, pasteMod)))
  {
    Decimal.ItoaRoundTrip(pasteMod);
    var common := map[
      DevKeyField := p.developerKey,
      PasteCodeField := pasteText,
      PasteNameField := pasteTitle,
      PastePrivateField := Decimal.Itoa(pasteMod),
      PasteExpireField := expireDate,
      PasteFormatField := pasteFormat,
      OptionField := OptionPaste];
    Request(Post, PostUrl, if guest then common else common[UserKeyField := p.userKey])
  }

  /** Asks for the account's details. */
  function GetUserInfo(p: Pastebin): (r: Request)
    ensures r.verb == Post && r.endpoint == PostUrl && Signed(p, r)
    ensures Interpret(r) == Some(Command(p.developerKey, Some(p.userKey), UserDetails))
  {
    Request(Post, PostUrl, map[
      DevKeyField := p.developerKey,
      UserKeyField := p.userKey,
      OptionField := OptionUserDetails])
  }

  /** The result-limit rule: 0 asks for the default, anything else must lie
      in [1, 1000]. */
  function ResultsLimit(n: int): (r: Result<int, Error>)
    ensures r.Ok? <==> 0 <= n <= MaxResultsLimit
    ensures r.Ok? ==> 1 <= r.value <= MaxResultsLimit
    ensures r.Ok? && n != 0 ==> r.value == n
    ensures n == 0 ==> r == Ok(DefaultResultsLimit)
    ensures r.Err? ==> r.error == Validation(LimitMessage)
  {
    if n == 0 then Ok(DefaultResultsLimit)
    else if n < 0 || n > MaxResultsLimit then Err(Validation(LimitMessage))
    else Ok(n)
  }

  /** Lists the user's pastes; an out-of-range limit builds no request. */
  function ListUserPastes(p: Pastebin, resultLimit: int): (r: Result<Request, Error>)
    ensures r.Ok? <==> 0 <= resultLimit <= MaxResultsLimit
    ensures r.Err? ==> r.error == Validation(LimitMessage)
    ensures r.Ok? ==> r.value.verb == Post && r.value.endpoint == PostUrl && Signed(p, r.value)
    ensures r.Ok? ==> ResultsLimitField in r.value.fields && r.value.fields[ResultsLimitField]
                        == Decimal.Itoa(if resultLimit == 0 then DefaultResultsLimit else resultLimit)
    ensures r.Ok? ==> Interpret(r.value) == Some(Command(p.developerKey, Some(p.userKey),
                                                         ListPastes(ResultsLimit(resultLimit).value)))
  {
    match ResultsLimit(resultLimit)
    case Err(e) => Err(e)
    case Ok(limit) =>
      Decimal.ItoaRoundTrip(limit);
      Ok(Request(Post, PostUrl, map[
        DevKeyField := p.developerKey,
        UserKeyField := p.userKey,
        ResultsLimitField := Decimal.Itoa(limit),
        OptionField := OptionList]))
  }

  /** Fetches one of the user's own pastes, private ones included. */
  function GetUserPaste(p: Pastebin, pasteKey: string): (r: Request)
    ensures r.verb == Post && r.endpoint == RawApiUrl && Signed(p, r)
    ensures Interpret(r) == Some(Command(p.developerKey, Some(p.userKey), ShowPaste(pasteKey)))
  {
    Request(Post, RawApiUrl, map[
      DevKeyField := p.developerKey,
      UserKeyField := p.userKey,
      PasteKeyField := pasteKey,
      OptionField := OptionShowPaste])
  }

  /** Deletes one of the user's pastes. */
  function DeleteUserPaste(p: Pastebin, pasteKey: string): (r: Request)
    ensures r.verb == Post && r.endpoint == PostUrl && Signed(p, r)
    ensures Interpret(r) == Some(Command(p.developerKey, Some(p.userKey), DeletePaste(pasteKey)))
  {
    Request(Post, PostUrl, map[
      DevKeyField := p.developerKey,
      UserKeyField := p.userKey,
      PasteKeyField := pasteKey,
      OptionField := OptionDelete])
  }

  /** The public raw fetch: a GET of the raw path joined with the key,
      carrying no form fields and so no keys at all. */
  function GetPaste(pasteKey: string): (r: Request)
    ensures r.verb == Get && r.fields == map[]
    ensures Interpret(r) == None
    ensures |r.endpoint| > |RawOrigin| && r.endpoint[..|RawOrigin|] == RawOrigin
    ensures r.endpoint[|RawOrigin|] == '/'
  {
    var path := Paths.Join(RawBasePath, pasteKey);
    Request(Get, RawOrigin + path, map[])
  }

  /** The request a client operation sends, or the local rejection. */
  function Build(p: Pastebin, op: Operation): (r: Result<Request, Error>)
    ensures r.Err? <==> op.ListPastes? && ResultsLimit(op.limit).Err?
  {
    match op
    case Login(u, pw) => Ok(GetUserKey(p, u, pw))
    case NewPaste(text, guest, title, format, expire, mod) =>
      Ok(CreateNewPaste(p, text, guest, title, format, expire, mod))
    case UserDetails => Ok(GetUserInfo(p))
    case ListPastes(n) => ListUserPastes(p, n)
    case ShowPaste(key) => Ok(GetUserPaste(p, key))
    case DeletePaste(key) => Ok(DeleteUserPaste(p, key))
  }

  /** The user key an operation attaches: none for logging in and for guest
      pastes, the client's own otherwise. */
  function AttachedUserKey(p: Pastebin, op: Operation): Option<string>
  {
    if op.Login? || (op.NewPaste? && op.guest) then None else Some(p.userKey)
  }

  /** The operation as the service receives it: a zero limit arrives as the
      default. */
  function AsSent(op: Operation): Operation
  {
    if op.ListPastes? && op.limit == 0 then ListPastes(DefaultResultsLimit) else op
  }

  /** Runs one operation against the server: it sends exactly the request
      the operation builds, or nothing when building fails, and the result
      is the classified answer to what it sent. */
  function Perform(p: Pastebin, op: Operation, server: Server): (c: Call)
    ensures c.sent == (if Build(p, op).Ok? then [Build(p, op).value] else [])
    ensures c.sent == [] ==> c.result.Err? && c.result.error.Validation?
    ensures |c.sent| == 1 ==> Signed(p, c.sent[0]) && c.sent[0].verb == Post
    ensures |c.sent| == 1 ==> c.result == Receive(server(c.sent[0]))
  {
    match Build(p, op)
    case Err(e) => Call([], Err(e))
    case Ok(req) => Call([req], Receive(server(req)))
  }

  /** GetPaste with its exchange: the body is returned as it came, with no
      bad-request classification. */
  function FetchPaste(pasteKey: string, server: Server): (c: Call)
    ensures c.sent == [GetPaste(pasteKey)]
    ensures server(c.sent[0]).Body? ==> c.result == Ok(server(c.sent[0]).text)
    ensures server(c.sent[0]).TransportFailure? ==> c.result == Err(Transport(server(c.sent[0]).msg))
  {
    var req := GetPaste(pasteKey);
    match server(req)
    case Body(s) => Call([req], Ok(s))
    case TransportFailure(m) => Call([req], Err(Transport(m)))
  }

  /** Every request the client builds is read by the service as exactly the
      operation it was built from, under the developer key and the user key
      the operation attaches. */
  lemma BuildRoundTrip(p: Pastebin, op: Operation)
    ensures Build(p, op).Ok? ==> Signed(p, Build(p, op).value)
    ensures Build(p, op).Ok? ==>
      Interpret(Build(p, op).value) == Some(Command(p.developerKey, AttachedUserKey(p, op), AsSent(op)))
  {
  }

  /** Two operations that build the same request ask the same thing of the
      service. */
  lemma BuildDistinguishesOperations(p: Pastebin, a: Operation, b: Operation)
    requires Build(p, a).Ok? && Build(p, a) == Build(p, b)
    ensures AsSent(a) == AsSent(b)
  {
  }

  /** An out-of-range limit fails locally: nothing is sent, and the outcome
      is the same whatever the server would have answered. */
  lemma ListLimitRejectedBeforeSending(p: Pastebin, n: int, s1: Server, s2: Server)
    requires n < 0 || n > MaxResultsLimit
    ensures Perform(p, ListPastes(n), s1) == Perform(p, ListPastes(n), s2)
    ensures Perform(p, ListPastes(n), s1) == Call([], Err(Validation(LimitMessage)))
  {
  }

  /** A limit in range reaches the service unchanged, and zero reaches it as
      the default. */
  lemma ListLimitAsSent(p: Pastebin, n: int)
    requires 0 <= n <= MaxResultsLimit
    ensures ListUserPastes(p, n).Ok?
    ensures Decimal.ParseInt(ListUserPastes(p, n).value.fields[ResultsLimitField])
            == Some(if n == 0 then DefaultResultsLimit else n)
  {
  }

  /** A guest paste does not depend on the configured user key at all. */
  lemma GuestPasteIgnoresUserKey(p: Pastebin, userKey: string, text: string, title: string,
                                 format: string, expire: string, mod: int)
    ensures CreateNewPaste(p, text, true, title, format, expire, mod)
         == CreateNewPaste(Pastebin(p.developerKey, userKey), text, true, title, format, expire, mod)
  {
  }

  /** Reading a paste upload's fields back gives the title, format, expiry
      directive and visibility it was built from. */
  lemma PasteFieldsRoundTrip(p: Pastebin, text: string, guest: bool, title: string,
                             format: string, e: Expiry, v: Visibility)
    ensures var f := CreateNewPaste(p, text, guest, title, format, ExpiryToken(e), VisibilityCode(v)).fields;
      && PasteCodeField in f && f[PasteCodeField] == text
      && PasteNameField in f && f[PasteNameField] == title
      && PasteFormatField in f && f[PasteFormatField] == format
      && PasteExpireField in f && ParseExpiry(f[PasteExpireField]) == Some(e)
      && PastePrivateField in f && Decimal.ParseInt(f[PastePrivateField]) == Some(VisibilityCode(v))
  {
  }

  /** Whatever operation was run, a body the server sent back is reported
      word for word: as the result, or as the text of a service error exactly
      when it starts with the bad-request prefix. */
  lemma ReplyReportedVerbatim(p: Pastebin, op: Operation, server: Server)
    requires Build(p, op).Ok? && server(Build(p, op).value).Body?
    ensures var c := Perform(p, op, server);
      var body := server(Build(p, op).value).text;
      && Text(c.result) == body
      && (c.result.Err? <==> IsBadResponse(body))
      && (c.result.Err? ==> c.result.error == Service(body))
  {
  }

  /** The public fetch returns even a bad-request body as content, where an
      API call would report it as an error. */
  lemma RawFetchNotClassified(pasteKey: string, rest: string, server: Server)
    requires server(GetPaste(pasteKey)) == Body(BadRequestPrefix + rest)
    ensures FetchPaste(pasteKey, server).result == Ok(BadRequestPrefix + rest)
    ensures Classify(BadRequestPrefix + rest).Err?
  {
  }

  /** A key that is one plain path segment is fetched from /raw/<key>. */
  lemma GetPasteSimpleKey(pasteKey: string)
    requires Paths.IsName(pasteKey)
    ensures GetPaste(pasteKey).endpoint == RawOrigin + RawBasePath + "/" + pasteKey
  {
    Paths.SplitNoSlash(RawBasePath[1..]);
    Paths.SimpleKeyJoin(RawBasePath, pasteKey);
  }

  /** Keys that are not plain segments are cleaned away: an empty key or "."
      fetches /raw itself, and ".." climbs to the site root. */
  lemma GetPasteDotKeys()
    ensures GetPaste("").endpoint == RawOrigin + RawBasePath
    ensures GetPaste(".").endpoint == RawOrigin + RawBasePath
    ensures GetPaste("..").endpoint == RawOrigin + "/"
  {
    Paths.SplitNoSlash(RawBasePath[1..]);
    Paths.JoinDotSegments(RawBasePath);
    assert Paths.Split(RawBasePath[1..])[..0] == [];
  }
}
