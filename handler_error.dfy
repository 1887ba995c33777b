/**
 * `handleApiError`: turns a failed request into the Error the services
 * throw. It never returns normally; the model returns the thrown message.
 */
module HandlerError {
  import opened Common

  datatype HttpResponse = HttpResponse(status: int, statusText: string)

  /** The caught value: an Axios error (with its code and response, if any) or anything else. */
  datatype Caught =
    | AxiosError(code: Option<string>, response: Option<HttpResponse>)
    | OtherError

  /** The one way the function ends: by throwing an Error with this message. */
  datatype Thrown = Thrown(message: string)

  const NetworkMessage := "Não foi possível conectar ao servidor. Verifique se o backend está rodando."
  const UnknownStatusText := "Erro desconhecido"

  function HandleApiError(error: Caught, defaultMessage: string): (t: Thrown)
    ensures error.AxiosError? && error.code == Some("ERR_NETWORK") ==> t.message == NetworkMessage
    ensures error.AxiosError? && error.code != Some("ERR_NETWORK") && error.response.Some? ==>
      var resp := error.response.value;
      t.message == defaultMessage + ": " + IntToString(resp.status) + " - " +
        (if resp.statusText == "" then UnknownStatusText else resp.statusText)
    ensures error.OtherError? || (error.code != Some("ERR_NETWORK") && error.response.None?) ==>
      t.message == defaultMessage
  {
    if error.AxiosError? && error.code == Some("ERR_NETWORK") then Thrown(NetworkMessage)
    else if error.AxiosError? && error.response.Some? then
      var resp := error.response.value;
      var text := if resp.statusText == "" then UnknownStatusText else resp.statusText;
      Thrown(defaultMessage + ": " + IntToString(resp.status) + " - " + text)
    else Thrown(defaultMessage)
  }

  /** Every message other than the connection one starts with the caller's default message. */
  lemma MessageKeepsDefault(error: Caught, defaultMessage: string)
    requires !(error.AxiosError? && error.code == Some("ERR_NETWORK"))
    ensures IsPrefix(defaultMessage, HandleApiError(error, defaultMessage).message)
  {
    var m := HandleApiError(error, defaultMessage).message;
    assert m[..|defaultMessage|] == defaultMessage;
  }

  /** The connection message ignores the caller's default and the response. */
  lemma NetworkMessageFixed(error: Caught, d1: string, d2: string)
    requires error.AxiosError? && error.code == Some("ERR_NETWORK")
    ensures HandleApiError(error, d1) == HandleApiError(error, d2) == Thrown(NetworkMessage)
  {
  }

  /** A response's message never equals the bare default: it always carries the status part. */
  lemma ResponseMessageLonger(error: Caught, defaultMessage: string)
    requires error.AxiosError? && error.code != Some("ERR_NETWORK") && error.response.Some?
    ensures |HandleApiError(error, defaultMessage).message| > |defaultMessage| + 5
  {
  }
}
