/** Builders for the authentication and account endpoints (src/Api/Auth.php). */
module Auth {
  import opened Php
  import opened Http
  import opened Json

  // The messages of the \InvalidArgumentException the endpoints raise.
  const CodeRequired := "Parameter 'code' is required."
  const OldpasswordNewpasswordRequired := "Parameters 'oldpassword' and 'newpassword' are required."
  const MailRequired := "Parameter 'mail' is required."
  const CodeNewpasswordRequired := "Parameters 'code' and 'newpassword' are required."
  const MailPasswordTermsacceptedYesRequired := "Parameters 'mail', 'password' and 'termsaccepted'='yes' are required."
  const TokenidRequired := "Parameter 'tokenid' is required."
  const PasswordCodeRequired := "Parameters 'password' and 'code' are required."

  /** sendverificationemail: mails the user an activation link; no query. */
  function SendVerificationEmail(): (r: Result<Request>)
    ensures r.Success?
    ensures r.Success? ==> r.value == JsonGet("sendverificationemail", [])
  {
    Success(JsonGet("sendverificationemail", []))
  }

  /** verifyemail: verifies an email with its activation code. */
  function VerifyEmail(code: string): (r: Result<Request>)
    ensures r.Failure? <==> EmptyStr(code)
    ensures r.Failure? ==> r.error == InvalidArgument(CodeRequired)
    ensures r.Success? ==> r.value == JsonGet("verifyemail", [(Name("code"), S(code))])
  {
    if EmptyStr(code) then Failure(InvalidArgument(CodeRequired))
    else Success(JsonGet("verifyemail", [(Name("code"), S(code))]))
  }

  /** changepassword: replaces the current password. */
  function ChangePassword(oldpassword: string, newpassword: string): (r: Result<Request>)
    ensures r.Failure? <==> EmptyStr(oldpassword) || EmptyStr(newpassword)
    ensures r.Failure? ==> r.error == InvalidArgument(OldpasswordNewpasswordRequired)
    ensures r.Success? ==> r.value == JsonGet("changepassword", [(Name("oldpassword"), S(oldpassword)), (Name("newpassword"), S(newpassword))])
  {
    if EmptyStr(oldpassword) || EmptyStr(newpassword) then Failure(InvalidArgument(OldpasswordNewpasswordRequired))
    else Success(JsonGet("changepassword", [(Name("oldpassword"), S(oldpassword)), (Name("newpassword"), S(newpassword))]))
  }

  /** lostpassword: mails password reset instructions. */
  function LostPassword(mail: string): (r: Result<Request>)
    ensures r.Failure? <==> EmptyStr(mail)
    ensures r.Failure? ==> r.error == InvalidArgument(MailRequired)
    ensures r.Success? ==> r.value == JsonGet("lostpassword", [(Name("mail"), S(mail))])
  {
    if EmptyStr(mail) then Failure(InvalidArgument(MailRequired))
    else Success(JsonGet("lostpassword", [(Name("mail"), S(mail))]))
  }

  /** resetpassword: sets a new password with the code from the reset mail. */
  function ResetPassword(code: string, newpassword: string): (r: Result<Request>)
    ensures r.Failure? <==> EmptyStr(code) || EmptyStr(newpassword)
    ensures r.Failure? ==> r.error == InvalidArgument(CodeNewpasswordRequired)
    ensures r.Success? ==> r.value == JsonGet("resetpassword", [(Name("code"), S(code)), (Name("newpassword"), S(newpassword))])
  {
    if EmptyStr(code) || EmptyStr(newpassword) then Failure(InvalidArgument(CodeNewpasswordRequired))
    else Success(JsonGet("resetpassword", [(Name("code"), S(code)), (Name("newpassword"), S(newpassword))]))
  }

  /** The keys register may send, in the order its code assigns them. */
  const RegisterKeys: Names := ["mail", "password", "termsaccepted", "language", "referer"]

  /** What register sends under each of its keys, in the same order (None: the key is left out). */
  function RegisterValues(mail: string, password: string, termsaccepted: string, language: Option<string>, referer: Option<string>): seq<Option<Value>>
  {
    [Some(S(mail)),
     Some(S(password)),
     Some(S(termsaccepted)),
     Str(language),
     Str(referer)]
  }

  /** register: registers a new account; the terms must be accepted with exactly "yes". */
  method Register(mail: string, password: string, termsaccepted: string, language: Option<string>, referer: Option<string>)
    returns (r: Result<Request>)
    ensures r.Failure? <==> EmptyStr(mail) || EmptyStr(password) || termsaccepted != "yes"
    ensures r.Failure? ==> r.error == InvalidArgument(MailPasswordTermsacceptedYesRequired)
    ensures r.Success? ==> r.value == JsonGet("register", Query(RegisterKeys, RegisterValues(mail, password, termsaccepted, language, referer)))
  {
    if EmptyStr(mail) || EmptyStr(password) || termsaccepted != "yes" {
      return Failure(InvalidArgument(MailPasswordTermsacceptedYesRequired));
    }
    var ks, vs := RegisterKeys, RegisterValues(mail, password, termsaccepted, language, referer);
    assert |ks| == |vs| == 5;
    var query: PArray := [(Name(ks[0]), S(mail)), (Name(ks[1]), S(password)), (Name(ks[2]), S(termsaccepted))];
    SeededCompose(query, ks, vs);
    query := Assign(query, ks, vs, 3);  // language
    query := Assign(query, ks, vs, 4);  // referer
    r := Success(JsonGet("register", query));
  }

  /** invite: the registration link carrying the user's referrer code; no query. */
  function Invite(): (r: Result<Request>)
    ensures r.Success?
    ensures r.Success? ==> r.value == JsonGet("invite", [])
  {
    Success(JsonGet("invite", []))
  }

  /** userinvites: the invitations the user has sent; no query. */
  function UserInvites(): (r: Result<Request>)
    ensures r.Success?
    ensures r.Success? ==> r.value == JsonGet("userinvites", [])
  {
    Success(JsonGet("userinvites", []))
  }

  /** logout: invalidates the current token; no query. */
  function Logout(): (r: Result<Request>)
    ensures r.Success?
    ensures r.Success? ==> r.value == JsonGet("logout", [])
  {
    Success(JsonGet("logout", []))
  }

  /** deletetoken: invalidates the token `tokenid`. */
  function DeleteToken(tokenid: int): (r: Result<Request>)
    ensures r.Failure? <==> EmptyInt(tokenid)
    ensures r.Failure? ==> r.error == InvalidArgument(TokenidRequired)
    ensures r.Success? ==> r.value == JsonGet("deletetoken", [(Name("tokenid"), I(tokenid))])
  {
    if EmptyInt(tokenid) then Failure(InvalidArgument(TokenidRequired))
    else Success(JsonGet("deletetoken", [(Name("tokenid"), I(tokenid))]))
  }

  /** The keys sendchangemail may send, in the order its code assigns them. */
  const SendChangeMailKeys: Names := ["newmail", "code"]

  /** What sendchangemail sends under each of its keys, in the same order (None: the key is left out). */
  function SendChangeMailValues(newmail: Option<string>, code: Option<string>): seq<Option<Value>>
  {
    [Str(newmail),
     Str(code)]
  }

  /** sendchangemail: mails a change-email link, to `newmail` when given with its code; never rejected locally. */
  method SendChangeMail(newmail: Option<string>, code: Option<string>)
    returns (r: Result<Request>)
    ensures r.Success?
    ensures r.Success? ==> r.value == JsonGet("sendchangemail", Query(SendChangeMailKeys, SendChangeMailValues(newmail, code)))
  {
    var ks, vs := SendChangeMailKeys, SendChangeMailValues(newmail, code);
    assert |ks| == |vs| == 2;
    var query: PArray := [];
    query := Assign(query, ks, vs, 0);  // newmail
    query := Assign(query, ks, vs, 1);  // code
    r := Success(JsonGet("sendchangemail", query));
  }

  /** changemail: changes the email to the one the code was sent to. */
  function ChangeMail(password: string, code: string): (r: Result<Request>)
    ensures r.Failure? <==> EmptyStr(password) || EmptyStr(code)
    ensures r.Failure? ==> r.error == InvalidArgument(PasswordCodeRequired)
    ensures r.Success? ==> r.value == JsonGet("changemail", [(Name("password"), S(password)), (Name("code"), S(code))])
  {
    if EmptyStr(password) || EmptyStr(code) then Failure(InvalidArgument(PasswordCodeRequired))
    else Success(JsonGet("changemail", [(Name("password"), S(password)), (Name("code"), S(code))]))
  }

  /** senddeactivatemail: mails an account deactivation link; no query. */
  function SendDeactivateMail(): (r: Result<Request>)
    ensures r.Success?
    ensures r.Success? ==> r.value == JsonGet("senddeactivatemail", [])
  {
    Success(JsonGet("senddeactivatemail", []))
  }

  /** deactivateuser: deactivates the account. */
  function DeactivateUser(password: string, code: string): (r: Result<Request>)
    ensures r.Failure? <==> EmptyStr(password) || EmptyStr(code)
    ensures r.Failure? ==> r.error == InvalidArgument(PasswordCodeRequired)
    ensures r.Success? ==> r.value == JsonGet("deactivateuser", [(Name("password"), S(password)), (Name("code"), S(code))])
  {
    if EmptyStr(password) || EmptyStr(code) then Failure(InvalidArgument(PasswordCodeRequired))
    else Success(JsonGet("deactivateuser", [(Name("password"), S(password)), (Name("code"), S(code))]))
  }

  const FetchTokensFailed := "Failed to fetch tokens: "

  /** listtokens: requested at the path "/listtokens" with no query; after the
      result-code check it returns the `tokens` field, or an empty array without one. */
  function ListTokens(data: JValue): (r: Call)
    ensures r.request == JsonGet("/listtokens", [])
    ensures r.outcome.Failure? <==> Rejected(data) || (Isset(data, "tokens") && !IsArray(Field(data, "tokens").value))
    ensures Rejected(data) ==> r.outcome.error == RuntimeError(FetchTokensFailed + ErrorText(data))
    ensures r.outcome.Success? ==> r.outcome.value == if Isset(data, "tokens") then Field(data, "tokens").value else JList([])
  {
    Call(JsonGet("/listtokens", []), CheckedField(FetchTokensFailed, data, "tokens"))
  }
}
