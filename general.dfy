/** The general endpoints (src/Api/General.php): each sends a fixed or caller-given
    query and then checks the decoded response `data` for a server error. */
module General {
  import opened Php
  import opened Http
  import opened Json

  // The prefixes of the \RuntimeException messages.
  const FetchUserInfoFailed := "Failed to fetch user info: "
  const FetchLanguagesFailed := "Failed to fetch supported languages: "
  const SetLanguageFailed := "Failed to set language: "
  const FetchCurrentServerFailed := "Failed to fetch current server info: "
  const FetchDiffFailed := "Failed to fetch diff: "
  const FetchFileHistoryFailed := "Failed to fetch file history: "
  const FetchIpFailed := "Failed to fetch IP info: "
  const FetchApiServerFailed := "Failed to fetch API server info: "

  /** userinfo: the account of the current user. */
  function UserInfo(data: JValue): (r: Call)
    ensures r.request == JsonGet("/userinfo", [])
    ensures r.outcome.Failure? <==> Rejected(data) || !IsArray(data)
    ensures Rejected(data) ==> r.outcome.error == RuntimeError(FetchUserInfoFailed + ErrorText(data))
    ensures r.outcome.Success? ==> r.outcome.value == data
  {
    Call(JsonGet("/userinfo", []), CheckedData(FetchUserInfoFailed, data))
  }

  /** supportedlanguages: the `languages` field of the response, or an empty array without one. */
  function SupportedLanguages(data: JValue): (r: Call)
    ensures r.request == JsonGet("/supportedlanguages", [])
    ensures r.outcome.Failure? <==> Rejected(data) || (Isset(data, "languages") && !IsArray(Field(data, "languages").value))
    ensures Rejected(data) ==> r.outcome.error == RuntimeError(FetchLanguagesFailed + ErrorText(data))
    ensures r.outcome.Success? ==> r.outcome.value == if Isset(data, "languages") then Field(data, "languages").value else JList([])
  {
    Call(JsonGet("/supportedlanguages", []), CheckedField(FetchLanguagesFailed, data, "languages"))
  }

  /** setlanguage: sets the language of the user; the argument is not checked locally. */
  function SetLanguage(language: string, data: JValue): (r: Call)
    ensures r.request == JsonGet("/setlanguage", [(Name("language"), S(language))])
    ensures r.outcome.Failure? <==> Rejected(data) || !IsArray(data)
    ensures Rejected(data) ==> r.outcome.error == RuntimeError(SetLanguageFailed + ErrorText(data))
    ensures r.outcome.Success? ==> r.outcome.value == data
  {
    Call(JsonGet("/setlanguage", [(Name("language"), S(language))]), CheckedData(SetLanguageFailed, data))
  }

  /** currentserver: the server the client is connected to. */
  function CurrentServer(data: JValue): (r: Call)
    ensures r.request == JsonGet("/currentserver", [])
    ensures r.outcome.Failure? <==> Rejected(data) || !IsArray(data)
    ensures Rejected(data) ==> r.outcome.error == RuntimeError(FetchCurrentServerFailed + ErrorText(data))
    ensures r.outcome.Success? ==> r.outcome.value == data
  {
    Call(JsonGet("/currentserver", []), CheckedData(FetchCurrentServerFailed, data))
  }

  /** diff: the changes to the user's files; the caller's parameters are sent unchanged. */
  function Diff(params: PArray, data: JValue): (r: Call)
    ensures r.request == JsonGet("/diff", params)
    ensures r.outcome.Failure? <==> Rejected(data) || !IsArray(data)
    ensures Rejected(data) ==> r.outcome.error == RuntimeError(FetchDiffFailed + ErrorText(data))
    ensures r.outcome.Success? ==> r.outcome.value == data
  {
    Call(JsonGet("/diff", params), CheckedData(FetchDiffFailed, data))
  }

  /** getfilehistory: the event history of a file; `fileid` is not checked locally. */
  function GetFileHistory(fileid: int, data: JValue): (r: Call)
    ensures r.request == JsonGet("/getfilehistory", [(Name("fileid"), I(fileid))])
    ensures r.outcome.Failure? <==> Rejected(data) || !IsArray(data)
    ensures Rejected(data) ==> r.outcome.error == RuntimeError(FetchFileHistoryFailed + ErrorText(data))
    ensures r.outcome.Success? ==> r.outcome.value == data
  {
    Call(JsonGet("/getfilehistory", [(Name("fileid"), I(fileid))]), CheckedData(FetchFileHistoryFailed, data))
  }

  /** getip: the address and country of the caller. */
  function GetIp(data: JValue): (r: Call)
    ensures r.request == JsonGet("/getip", [])
    ensures r.outcome.Failure? <==> Rejected(data) || !IsArray(data)
    ensures Rejected(data) ==> r.outcome.error == RuntimeError(FetchIpFailed + ErrorText(data))
    ensures r.outcome.Success? ==> r.outcome.value == data
  {
    Call(JsonGet("/getip", []), CheckedData(FetchIpFailed, data))
  }

  /** getapiserver: the API server closest to the caller. */
  function GetApiServer(data: JValue): (r: Call)
    ensures r.request == JsonGet("/getapiserver", [])
    ensures r.outcome.Failure? <==> Rejected(data) || !IsArray(data)
    ensures Rejected(data) ==> r.outcome.error == RuntimeError(FetchApiServerFailed + ErrorText(data))
    ensures r.outcome.Success? ==> r.outcome.value == data
  {
    Call(JsonGet("/getapiserver", []), CheckedData(FetchApiServerFailed, data))
  }
}
