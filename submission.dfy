/**
 * What `handleGenerateSummary` in frontend/src/App.tsx does with the outside world:
 * where it posts (the endpoint, resolved once when the module loads), how it reads
 * the service's reply, how it turns whatever was thrown into one user-facing
 * message, and which notifications it emits.
 */
module Submission {
  import opened Wrappers
  import opened Text

  /** The route the summarisation service listens on. */
  const Route := "/transcrever-audio"
  /** The address used when no base URL is configured. */
  const DefaultBase := "http://127.0.0.1:8001"

  /**
   * `API_ENDPOINT`: the configured base URL (the `VITE_API_URL` build variable,
   * absent when undefined) followed by the route when that value is truthy, else
   * the fixed local address.
   */
  function ResolveEndpoint(viteApiUrl: Option<string>): (url: string)
    ensures EndsWith(url, Route)
    ensures url[..|url| - |Route|] == if Truthy(viteApiUrl) then viteApiUrl.value else DefaultBase
    ensures !Truthy(viteApiUrl) ==> url == "http://127.0.0.1:8001/transcrever-audio"
  {
    if Truthy(viteApiUrl) then viteApiUrl.value + Route else "http://127.0.0.1:8001/transcrever-audio"
  }

  /** The JSON body of a 2xx reply; a field the body lacks is `None`. */
  datatype Body = Body(sucesso: bool, resumo: Option<string>, mensagem: Option<string>)

  /** `error.response` of an axios error: the HTTP status and the body's `mensagem`. */
  datatype ErrorResponse = ErrorResponse(status: nat, mensagem: Option<string>)

  /** A value caught by the `catch` clause. */
  datatype Thrown =
    | AxiosError(response: Option<ErrorResponse>, code: Option<string>)
    | JsError(message: string)   // an `Error` that is not an axios error
    | NonError                   // any other thrown value

  /** How the awaited `axios.post` settles: with a 2xx body, or by throwing. */
  datatype Outcome = Resolved(data: Body) | Rejected(error: Thrown)

  /** Where one submission ends: the summary to show, or the detail of its failure. */
  datatype Verdict = Succeeded(summary: string) | Failed(detail: string)

  const ProcessingFallback := "Erro ao processar o áudio"
  const DefaultMessage := "Não foi possível conectar ao servidor. Verifique se o backend está rodando."
  const NetworkMessage := "Erro de conexão. Verifique se o backend está rodando em http://127.0.0.1:8001"
  const ServerErrorPrefix := "Erro do servidor: "
  const NetworkCode := "ERR_NETWORK"

  /** `Erro do servidor: ${status}`. */
  function ServerErrorMessage(status: nat): string {
    ServerErrorPrefix + Decimal(status)
  }

  /** The status a server-error message names, if it is one. */
  function ServerErrorStatus(m: string): Option<nat> {
    var n := |ServerErrorPrefix|;
    if n < |m| && m[..n] == ServerErrorPrefix && AllDigits(m[n..]) then Some(ParseDecimal(m[n..])) else None
  }

  /** The server-error message determines the status it was built from. */
  lemma ServerErrorMessageNamesStatus(status: nat)
    ensures ServerErrorStatus(ServerErrorMessage(status)) == Some(status)
  {
    var m := ServerErrorMessage(status);
    assert m[|ServerErrorPrefix|..] == Decimal(status);
    ParseDecimalOfDecimal(status);
  }

  /** Distinct statuses give distinct server-error messages. */
  lemma ServerErrorMessageInjective(a: nat, b: nat)
    requires ServerErrorMessage(a) == ServerErrorMessage(b)
    ensures a == b
  {
    ServerErrorMessageNamesStatus(a);
    ServerErrorMessageNamesStatus(b);
  }

  /**
   * The classification of a caught value, case by case in the order the source
   * tests them: an axios error with a response, an axios network error without one,
   * any other axios error, a plain `Error`, anything else.
   */
  function ErrorMessage(error: Thrown): (m: string)
    ensures m == "" ==> error.JsError? && error.message == ""
    // a response decides the message whatever axios's code is, `ERR_NETWORK` included
    ensures error.AxiosError? && error.response.Some? ==>
      m == OrElse(error.response.value.mensagem, ServerErrorMessage(error.response.value.status))
    ensures error.AxiosError? && error.response.None? ==>
      (m == NetworkMessage <==> error.code == Some(NetworkCode)) &&
      (m == DefaultMessage <==> error.code != Some(NetworkCode))
    ensures error.JsError? ==> m == error.message
    ensures error.NonError? ==> m == DefaultMessage
  {
    match error
    case AxiosError(Some(response), _) => OrElse(response.mensagem, ServerErrorMessage(response.status))
    case AxiosError(None, code) => if code == Some(NetworkCode) then NetworkMessage else DefaultMessage
    case JsError(message) => message
    case NonError => DefaultMessage
  }

  /**
   * The `catch` clause's message as the source computes it: start from the default
   * and let the first matching test overwrite it.
   */
  method CatchMessage(error: Thrown) returns (errorMessage: string)
    ensures errorMessage == ErrorMessage(error)
  {
    errorMessage := DefaultMessage;
    if error.AxiosError? {
      if error.response.Some? {
        errorMessage := OrElse(error.response.value.mensagem, ServerErrorMessage(error.response.value.status));
      } else if error.code == Some(NetworkCode) {
        errorMessage := NetworkMessage;
      }
    } else if error.JsError? {
      errorMessage := error.message;
    }
  }

  /** `data.sucesso && data.resumo`: the summary of a successful body. */
  function Interpret(data: Body): (summary: Option<string>)
    ensures summary.Some? <==> data.sucesso && Truthy(data.resumo)
    ensures summary.Some? ==> summary == data.resumo && summary.value != ""
  {
    if data.sucesso && Truthy(data.resumo) then data.resumo else None
  }

  /** What a body that is not a success throws: `new Error(data.mensagem || fallback)`. */
  function Rejection(data: Body): Thrown {
    JsError(OrElse(data.mensagem, ProcessingFallback))
  }

  /** The whole of one submission after the await: the try block, then the catch. */
  function Settle(o: Outcome): (v: Verdict)
    ensures v.Succeeded? <==> o.Resolved? && o.data.sucesso && Truthy(o.data.resumo)
    ensures v.Succeeded? ==> Some(v.summary) == o.data.resumo && v.summary != ""
    ensures o.Resolved? && v.Failed? ==> v.detail == OrElse(o.data.mensagem, ProcessingFallback)
    ensures o.Rejected? ==> v == Failed(ErrorMessage(o.error))
  {
    match o
    case Resolved(data) =>
      var summary := Interpret(data);
      if summary.Some? then Succeeded(summary.value) else Failed(ErrorMessage(Rejection(data)))
    case Rejected(error) => Failed(ErrorMessage(error))
  }

  /**
   * A failure body carrying a non-empty `mensagem` shows that text, whatever the
   * HTTP status: as the body of a 2xx reply and as the body of an error reply alike.
   */
  lemma StructuredFailureShowsMensagem(status: nat, mensagem: string, resumo: Option<string>, code: Option<string>)
    requires mensagem != ""
    ensures Settle(Resolved(Body(false, resumo, Some(mensagem)))) == Failed(mensagem)
    ensures Settle(Rejected(AxiosError(Some(ErrorResponse(status, Some(mensagem))), code))) == Failed(mensagem)
  {
  }

  /**
   * A failure body without a usable `mensagem` shows the generic fallback when it
   * arrives as a 2xx body, and names the status when it arrives as an error reply.
   */
  lemma StructuredFailureWithoutMensagem(status: nat, resumo: Option<string>, mensagem: Option<string>, code: Option<string>)
    requires !Truthy(mensagem)
    ensures Settle(Resolved(Body(false, resumo, mensagem))) == Failed(ProcessingFallback)
    ensures Settle(Rejected(AxiosError(Some(ErrorResponse(status, mensagem)), code))) == Failed(ServerErrorMessage(status))
  {
  }

  /** An axios error without a response and with code `ERR_NETWORK` always shows the fixed connectivity message, naming the default address. */
  lemma NetworkFailureMessage(code: Option<string>)
    ensures Settle(Rejected(AxiosError(None, Some(NetworkCode)))) == Failed(NetworkMessage)
    ensures EndsWith(NetworkMessage, DefaultBase)
    ensures code != Some(NetworkCode) ==> Settle(Rejected(AxiosError(None, code))) == Failed(DefaultMessage)
  {
    assert NetworkMessage == "Erro de conexão. Verifique se o backend está rodando em " + DefaultBase;
  }

  datatype Variant = Default | Destructive

  /** A notification passed to `toast`. */
  datatype Toast = Toast(variant: Variant, title: string, description: string)

  const NoFileToast := Toast(Destructive, "Nenhum arquivo selecionado", "Por favor, selecione um arquivo de áudio primeiro.")
  const SuccessToast := Toast(Default, "Resumo gerado com sucesso!", "Seu resumo está pronto para visualização.")
  const FailureTitle := "Erro ao gerar resumo"

  /** The one notification a settled submission emits. */
  function VerdictToast(v: Verdict): (t: Toast)
    ensures v.Succeeded? <==> t == SuccessToast
    ensures v.Failed? ==> t.variant == Destructive && t.title == FailureTitle && t.description == v.detail
  {
    match v
    case Succeeded(_) => SuccessToast
    case Failed(detail) => Toast(Destructive, FailureTitle, detail)
  }
}
