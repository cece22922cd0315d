/** The service's side of the wire contract: how a form request is read
    back into the command it asks for. A request that is not exactly one of
    the documented shapes reads as nothing. */
module Protocol {

  import opened Wrappers
  import opened Wire
  import Decimal

  /** One call on a Pastebin client, with the arguments it was given. */
  datatype Operation =
    | Login(username: string, password: string)
    | NewPaste(text: string, guest: bool, title: string, format: string, expire: string, mod: int)
    | UserDetails
    | ListPastes(limit: int)
    | ShowPaste(pasteKey: string)
    | DeletePaste(pasteKey: string)

  /** What the service is asked to do, and under which keys. */
  datatype Command = Command(devKey: string, userKey: Option<string>, op: Operation)

  /** The fields of a paste upload, apart from the optional user key. */
  const PasteFields: set<string> :=
    {DevKeyField, PasteCodeField, PasteNameField, PastePrivateField,
     PasteExpireField, PasteFormatField, OptionField}

  /** The fields of a request about one of the user's own pastes. */
  const OwnPasteFields: set<string> := {DevKeyField, UserKeyField, PasteKeyField, OptionField}

  function Interpret(r: Request): (c: Option<Command>)
    ensures c.Some? ==> r.verb == Post
    ensures c.Some? ==> DevKeyField in r.fields && c.value.devKey == r.fields[DevKeyField]
    ensures c.Some? ==> (UserKeyField in r.fields <==> c.value.userKey.Some?)
    ensures c.Some? && c.value.userKey.Some? ==> c.value.userKey.value == r.fields[UserKeyField]
  {
    var f := r.fields;
    if r.verb != Post || DevKeyField !in f then None
    else if r.endpoint == LoginUrl then
      if f.Keys == {DevKeyField, UserNameField, UserPasswordField} then
        Some(Command(f[DevKeyField], None, Login(f[UserNameField], f[UserPasswordField])))
      else None
    else if r.endpoint == RawApiUrl then
      if f.Keys == OwnPasteFields && f[OptionField] == OptionShowPaste then
        Some(Command(f[DevKeyField], Some(f[UserKeyField]), ShowPaste(f[PasteKeyField])))
      else None
    else if r.endpoint == PostUrl && OptionField in f then
      var option := f[OptionField];
      if option == OptionPaste then InterpretPaste(f)
      else if option == OptionUserDetails && f.Keys == {DevKeyField, UserKeyField, OptionField} then
        Some(Command(f[DevKeyField], Some(f[UserKeyField]), UserDetails))
      else if option == OptionList && f.Keys == {DevKeyField, UserKeyField, ResultsLimitField, OptionField}
              && Decimal.ParseInt(f[ResultsLimitField]).Some? then
        Some(Command(f[DevKeyField], Some(f[UserKeyField]), ListPastes(Decimal.ParseInt(f[ResultsLimitField]).value)))
      else if option == OptionDelete && f.Keys == OwnPasteFields then
        Some(Command(f[DevKeyField], Some(f[UserKeyField]), DeletePaste(f[PasteKeyField])))
      else None
    else None
  }

  /** A paste upload: with no user key it is a guest paste. */
  function InterpretPaste(f: map<string, string>): (c: Option<Command>)
    ensures c.Some? ==> DevKeyField in f && c.value.devKey == f[DevKeyField]
    ensures c.Some? ==> (UserKeyField in f <==> c.value.userKey.Some?)
    ensures c.Some? && c.value.userKey.Some? ==> c.value.userKey.value == f[UserKeyField]
  {
    var guest := f.Keys == PasteFields;
    if !guest && f.Keys != PasteFields + {UserKeyField} then None
    else if Decimal.ParseInt(f[PastePrivateField]).None? then None
    else
      var op := NewPaste(f[PasteCodeField], guest, f[PasteNameField], f[PasteFormatField],
                         f[PasteExpireField], Decimal.ParseInt(f[PastePrivateField]).value);
      Some(Command(f[DevKeyField], if guest then None else Some(f[UserKeyField]), op))
  }
}
