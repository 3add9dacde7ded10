/**
  The HTTP helper (utils/api.js): the default headers with the stored token, the request
  configuration with the caller's options, the classification of a response into data or an
  error, the rewriting of error messages in the outer `catch`, and the `api.get/post/put/delete`
  builders. The stored token, the outcome of `fetch` and the serialised JSON body are inputs;
  a response is an abstract record of its status, content type, text, and the object its text
  parses to, if it parses. A JSON object is modelled with its string-valued fields.
*/
module Api {
  import opened Wrappers
  import opened Text
  import opened JsObject
  import Register

  const JsonType := "application/json"
  const ContentTypeKey := "Content-Type"
  const AcceptKey := "Accept"
  const AuthorizationKey := "Authorization"

  /** The timeout, in milliseconds, every request configuration carries. */
  const RequestTimeout := 15000

  const DefaultHeaders: Entries<string> := [(ContentTypeKey, JsonType), (AcceptKey, JsonType)]

  // ---------------------------------------------------------------------------------------
  // Headers and configuration

  /** `getHeaders()`, given how reading the stored 'accessToken' ends: the two JSON headers,
      plus a bearer header when a truthy token was read. A failed read gives the JSON headers
      alone. */
  function GetHeaders(token: Outcome<Option<string>>): (h: Entries<string>)
    ensures Has(h, AuthorizationKey) <==> token.Done? && token.value.Some? && token.value.value != ""
    ensures Has(h, AuthorizationKey) ==> Get(h, AuthorizationKey) == Some("Bearer " + token.value.value)
    ensures Get(h, ContentTypeKey) == Some(JsonType) && Get(h, AcceptKey) == Some(JsonType)
    ensures KeysUnique(h)
  {
    assert ContentTypeKey != AcceptKey && ContentTypeKey != AuthorizationKey && AcceptKey != AuthorizationKey;
    if token.Done? && token.value.Some? && token.value.value != "" then
      var bearer := (AuthorizationKey, "Bearer " + token.value.value);
      var h := DefaultHeaders + [bearer];
      assert h[1..] == [DefaultHeaders[1], bearer] && h[1..][1..] == [bearer];
      assert Get(h[1..][1..], AuthorizationKey) == Some(bearer.1);
      assert Get(h[1..], AuthorizationKey) == Some(bearer.1);
      assert Get(h, AuthorizationKey) == Some(bearer.1);
      h
    else
      assert DefaultHeaders[1..][1..] == [];
      assert Get(DefaultHeaders[1..], AuthorizationKey) == None;
      DefaultHeaders
  }

  /** The options a caller passes: the HTTP method (`verb`), the body and extra headers. */
  datatype Options = Options(verb: Option<string>, body: Option<string>, headers: Entries<string>)

  /** What is handed to `fetch`. */
  datatype RequestConfig = RequestConfig(verb: Option<string>, body: Option<string>, headers: Entries<string>, timeout: int)

  /** `{...options, headers: {...headers, ...options.headers}, timeout: 15000}` */
  function BuildConfig(headers: Entries<string>, options: Options): (c: RequestConfig)
    ensures c.verb == options.verb && c.body == options.body && c.timeout == RequestTimeout
  {
    RequestConfig(options.verb, options.body, Merge(headers, options.headers), RequestTimeout)
  }

  /** A caller's header replaces the default of the same name; every other default stays. */
  lemma CallerHeadersWin(token: Outcome<Option<string>>, options: Options, k: string)
    requires KeysUnique(options.headers)
    ensures var c := BuildConfig(GetHeaders(token), options);
            Get(c.headers, k) == if Has(options.headers, k) then Get(options.headers, k) else Get(GetHeaders(token), k)
  {
    MergeGet(GetHeaders(token), options.headers, k);
  }

  /** A caller cannot drop the JSON content type except by naming that header itself. */
  lemma ContentTypeKept(token: Outcome<Option<string>>, options: Options)
    requires KeysUnique(options.headers) && !Has(options.headers, ContentTypeKey)
    ensures Get(BuildConfig(GetHeaders(token), options).headers, ContentTypeKey) == Some(JsonType)
  {
    CallerHeadersWin(token, options, ContentTypeKey);
  }

  // ---------------------------------------------------------------------------------------
  // The response

  datatype Response = Response(
    status: int,
    /** The 'content-type' header, `None` when absent. */
    contentType: Option<string>,
    text: string,
    /** What `response.json()` yields; `None` when the text is not JSON. */
    json: Option<Entries<string>>,
    /** How reading the body a second time ends, once `response.json()` has consumed it:
        `None` when the read succeeds (a response without a body), otherwise the error it
        rejects with (a body already used rejects with a TypeError such as 'Already read'). */
    reread: Option<JsError>)

  /** How the `try` after `fetch` ends: with the data, or with the error it throws. */
  datatype Classified = Data(data: Entries<string>) | Raised(error: JsError)

  /** `response.ok` */
  predicate Ok(status: int) {
    200 <= status <= 299
  }

  predicate IsJsonContent(contentType: Option<string>) {
    contentType.Some? && contentType.value != "" && Contains(contentType.value, JsonType)
  }

  const InvalidJson := "El servidor no devolvió un JSON válido"
  /** Written in pieces of at most 30 characters, which the verifier can search for a letter. */
  const HtmlInsteadOfJson := "El servidor está " + "devolviendo HTML en lugar de " + "JSON"
    + ". Verifica que el endpoint" + " sea correcto y el servidor" + " esté funcionando."
  const NoJson := "El servidor no devolvió contenido JSON"

  /** `data.message || data.error || \`Error HTTP ${status}\`` */
  function HttpErrorMessage(data: Entries<string>, status: int): (r: string)
    ensures r != ""
    ensures Get(data, "message").Some? && Get(data, "message").value != "" ==> r == Get(data, "message").value
    ensures (!(Get(data, "message").Some? && Get(data, "message").value != "")
             && Get(data, "error").Some? && Get(data, "error").value != "") ==> r == Get(data, "error").value
    ensures (!(Get(data, "message").Some? && Get(data, "message").value != "")
             && !(Get(data, "error").Some? && Get(data, "error").value != "")) ==> r == "Error HTTP " + IntToString(status)
  {
    var m, e := Get(data, "message"), Get(data, "error");
    if m.Some? && m.value != "" then m.value
    else if e.Some? && e.value != "" then e.value
    else "Error HTTP " + IntToString(status)
  }

  /** The checks inside the `try` after `fetch` resolves: the content type first, then the
      status. The helper's own errors are named 'Error'; a failed second read of a body that did
      not parse as JSON throws that read's error instead of the invalid-JSON one. */
  function Classify(resp: Response): (r: Classified)
    ensures !IsJsonContent(resp.contentType) ==>
              && r.Raised? && r.error.name == "Error"
              && (r.error.message == HtmlInsteadOfJson <==> Contains(resp.text, "<html>") || Contains(resp.text, "<!DOCTYPE"))
              && (r.error.message == HtmlInsteadOfJson || r.error.message == NoJson)
    ensures (IsJsonContent(resp.contentType) && resp.json.None? && resp.reread.Some?) ==>
              r == Raised(resp.reread.value)
    ensures (IsJsonContent(resp.contentType) && resp.json.None? && resp.reread.None?) ==>
              r == Raised(JsError("Error", InvalidJson))
    ensures IsJsonContent(resp.contentType) && resp.json.Some? && Ok(resp.status) ==> r == Data(resp.json.value)
    ensures IsJsonContent(resp.contentType) && resp.json.Some? && !Ok(resp.status) ==>
              r == Raised(JsError("Error", HttpErrorMessage(resp.json.value, resp.status)))
  {
    if IsJsonContent(resp.contentType) then
      match resp.json
      case None =>
        if resp.reread.Some? then Raised(resp.reread.value) else Raised(JsError("Error", InvalidJson))
      case Some(data) =>
        if Ok(resp.status) then Data(data) else Raised(JsError("Error", HttpErrorMessage(data, resp.status)))
    else if Contains(resp.text, "<html>") || Contains(resp.text, "<!DOCTYPE") then
      assert |HtmlInsteadOfJson| != |NoJson|;
      Raised(JsError("Error", HtmlInsteadOfJson))
    else
      assert |HtmlInsteadOfJson| != |NoJson|;
      Raised(JsError("Error", NoJson))
  }

  /** The content type is checked before the status: a body that is not declared JSON fails
      the same way whatever the status, a success status included. */
  lemma ContentTypeBeforeStatus(resp: Response, status: int)
    requires !IsJsonContent(resp.contentType)
    ensures Classify(resp.(status := status)) == Classify(resp)
  {
  }

  /** Only a declared, parseable JSON body with a success status yields data, and then the data
      is the parsed body unchanged. */
  lemma OnlyOkJsonSucceeds(resp: Response)
    ensures Classify(resp).Data? <==> IsJsonContent(resp.contentType) && resp.json.Some? && Ok(resp.status)
    ensures Classify(resp).Data? ==> Classify(resp).data == resp.json.value
  {
  }

  // ---------------------------------------------------------------------------------------
  // Error rewriting

  /** A thrown JavaScript error; the ones raised by the helper itself are named 'Error'. */
  datatype JsError = JsError(name: string, message: string)

  /** How `fetch` ends: with a response, or rejected with an error. */
  datatype FetchResult = Responded(response: Response) | Rejected(error: JsError)

  const NetworkFailed := "Network request failed"
  const TimeoutText := "La petición tardó demasiado tiempo. Verifica tu conexión y que el servidor esté respondiendo."
  const GenericJsonText := "Error en la respuesta del servidor. El servidor puede estar devolviendo HTML en lugar de JSON."

  const TroubleshootingHead :=
    "No se pudo conectar con el servidor.\n\n🔍 Pasos para solucionar:\n\n"
    + "1. ✅ Verifica que tu servidor esté corriendo:\n   - Abre: http://localhost:8080\n"
    + "   - Deberías ver alguna respuesta\n\n"
    + "2. ✅ Para Expo + Android Emulator:\n   - URL usada: "
  const TroubleshootingTail :=
    "\n   - Verifica que el servidor escuche en 0.0.0.0:8080\n\n"
    + "3. ✅ Verifica la consola del servidor:\n   - ¿Llegan las peticiones?\n   - ¿Hay errores CORS?\n\n"
    + "4. ✅ Prueba desde el navegador:\n   - http://localhost:8080/api/users/check-email?email=test@test.com"

  /** The troubleshooting text, which quotes the full address of the request. */
  function Troubleshooting(url: string): (r: string)
    ensures Contains(r, url)
  {
    ContainsInfix(TroubleshootingHead, url, TroubleshootingTail);
    TroubleshootingHead + url + TroubleshootingTail
  }

  /** The outer `catch`: a network failure, a timeout and a JSON problem each get their own
      text, in that order; any other error is rethrown unchanged. */
  function Rewrite(e: JsError, url: string): (r: JsError)
    ensures e.name == "TypeError" && e.message == NetworkFailed ==> r.message == Troubleshooting(url)
    ensures !(e.name == "TypeError" && e.message == NetworkFailed) && Contains(e.message, "timeout") ==>
              r.message == TimeoutText
    ensures (!(e.name == "TypeError" && e.message == NetworkFailed) && !Contains(e.message, "timeout")
             && Contains(e.message, "JSON")) ==> r.message == GenericJsonText
    ensures (!(e.name == "TypeError" && e.message == NetworkFailed) && !Contains(e.message, "timeout")
             && !Contains(e.message, "JSON")) ==> r == e
  {
    if e.name == "TypeError" && e.message == NetworkFailed then JsError("Error", Troubleshooting(url))
    else if Contains(e.message, "timeout") then JsError("Error", TimeoutText)
    else if Contains(e.message, "JSON") then JsError("Error", GenericJsonText)
    else e
  }

  /** The helper's errors for a body that is not declared JSON, and its invalid-JSON error for a
      declared-JSON response without a body, mention JSON and not 'timeout', so each reaches the
      caller as the generic JSON text: the HTML explanation is never seen. */
  lemma JsonErrorsBecomeGeneric(resp: Response, url: string)
    requires !IsJsonContent(resp.contentType) || (resp.json.None? && resp.reread.None?)
    ensures Classify(resp).Raised?
    ensures Rewrite(Classify(resp).error, url).message == GenericJsonText
  {
    var m := Classify(resp).error.message;
    assert m == InvalidJson || m == HtmlInsteadOfJson || m == NoJson;
    if m == InvalidJson {
      InvalidJsonMentionsJson();
    } else if m == HtmlInsteadOfJson {
      HtmlMentionsJson();
    } else {
      NoJsonMentionsJson();
    }
  }

  lemma InvalidJsonMentionsJson()
    ensures Contains(InvalidJson, "JSON") && !Contains(InvalidJson, "timeout")
  {
    var head, tail := "El servidor no devolvió un ", " válido";
    assert InvalidJson == head + "JSON" + tail;
    ContainsInfix(head, "JSON", tail);
    assert 'm' !in head && 'm' !in "JSON" && 'm' !in tail;
    NotContainsWithoutChar(InvalidJson, "timeout", 'm');
  }

  lemma HtmlMentionsJson()
    ensures Contains(HtmlInsteadOfJson, "JSON") && !Contains(HtmlInsteadOfJson, "timeout")
  {
    var head := "El servidor está " + "devolviendo HTML en lugar de ";
    assert HtmlInsteadOfJson[|head|..|head| + 4] == "JSON";
    assert OccursAt(HtmlInsteadOfJson, "JSON", |head|);
    HtmlLacksM();
    NotContainsWithoutChar(HtmlInsteadOfJson, "timeout", 'm');
  }

  lemma HtmlLacksM()
    ensures 'm' !in HtmlInsteadOfJson
  {
    assert 'm' !in "El servidor está " && 'm' !in "devolviendo HTML en lugar de ";
    assert 'm' !in ". Verifica que el endpoint" && 'm' !in " sea correcto y el servidor";
    assert 'm' !in " esté funcionando." && 'm' !in "JSON";
  }

  lemma NoJsonMentionsJson()
    ensures Contains(NoJson, "JSON") && !Contains(NoJson, "timeout")
  {
    var head, tail := "El servidor no devolvió ", "contenido JSON";
    assert NoJson == head + tail;
    assert 'm' !in head && 'm' !in tail;
    NotContainsWithoutChar(NoJson, "timeout", 'm');
    assert OccursAt(NoJson, "JSON", |NoJson| - 4);
  }

  /** A declared-JSON body that does not parse is read a second time after `response.json()`
      has consumed it; when that read rejects with the used-body TypeError, the error reaches the
      caller unchanged, name included, and the invalid-JSON text is never seen. */
  lemma ConsumedBodyErrorRethrown(resp: Response, url: string)
    requires IsJsonContent(resp.contentType) && resp.json.None?
    requires resp.reread == Some(JsError("TypeError", "Already read"))
    ensures Classify(resp) == Raised(JsError("TypeError", "Already read"))
    ensures Rewrite(Classify(resp).error, url) == JsError("TypeError", "Already read")
  {
    assert |"Already read"| != |NetworkFailed|;
    NotContainsWithoutChar("Already read", "timeout", 'm');
    NotContainsWithoutChar("Already read", "JSON", 'J');
  }

  /** A server error whose message mentions a timeout reaches the caller as the timeout text:
      the server's own words are lost. */
  lemma ServerTimeoutMessageReplaced(resp: Response, url: string)
    requires IsJsonContent(resp.contentType) && resp.json.Some? && !Ok(resp.status)
    requires Contains(HttpErrorMessage(resp.json.value, resp.status), "timeout")
    ensures Classify(resp).Raised?
    ensures Rewrite(Classify(resp).error, url).message == TimeoutText
  {
  }

  /** `apiRequest(endpoint, options)`, given how reading the token and `fetch` end: the request
      it sends, and the data it returns or the error it throws. */
  method ApiRequest(baseUrl: string, endpoint: string, options: Options,
                    storedToken: Outcome<Option<string>>, fetched: FetchResult)
    returns (sent: RequestConfig, result: Classified)
    ensures sent == BuildConfig(GetHeaders(storedToken), options)
    ensures fetched.Rejected? ==> result == Raised(Rewrite(fetched.error, baseUrl + endpoint))
    ensures fetched.Responded? && Classify(fetched.response).Data? ==> result == Classify(fetched.response)
    ensures fetched.Responded? && Classify(fetched.response).Raised? ==>
              result == Raised(Rewrite(Classify(fetched.response).error, baseUrl + endpoint))
  {
    var url := baseUrl + endpoint;
    var headers := GetHeaders(storedToken);
    sent := BuildConfig(headers, options);
    var thrown: JsError;
    match fetched {
      case Rejected(e) =>
        thrown := e;
      case Responded(response) =>
        var data := Classify(response);
        if data.Data? {
          return sent, data;
        }
        thrown := data.error;
    }
    result := Raised(Rewrite(thrown, url));
  }

  /** A real network failure never shows the registration screen's connection help: the helper
      has already replaced the 'Network request failed' message with its troubleshooting text. */
  lemma NetworkFailureMissesRegisterHelp(url: string)
    ensures var m := Rewrite(JsError("TypeError", NetworkFailed), url).message;
            m != Register.NetworkFailed && Register.ErrorMessage(m) != Register.ConnectionHelp
  {
    var m := Troubleshooting(url);
    assert |m| >= |TroubleshootingHead| > |Register.NetworkFailed|;
    assert |"Error: " + m| > |Register.ConnectionHelp|;
    assert |Register.ConnectionHelp| != |Register.AlreadyRegistered|;
    assert |Register.ConnectionHelp| != |Register.TookTooLong|;
  }

  // ---------------------------------------------------------------------------------------
  // The builders

  /** `api.get(endpoint, options)` */
  function ApiGet(options: Options): Options {
    options.(verb := Some("GET"))
  }

  /** `api.post(endpoint, body, options)`, given `JSON.stringify(body)`. */
  function ApiPost(serialized: string, options: Options): Options {
    options.(verb := Some("POST"), body := Some(serialized))
  }

  /** `api.put(endpoint, body, options)`, given `JSON.stringify(body)`. */
  function ApiPut(serialized: string, options: Options): Options {
    options.(verb := Some("PUT"), body := Some(serialized))
  }

  /** `api.delete(endpoint, options)` */
  function ApiDelete(options: Options): Options {
    options.(verb := Some("DELETE"))
  }

  /** Each builder fixes the method over whatever the caller passed; only `post` and `put` fix
      the body, and none touches the caller's headers. */
  lemma BuildersFixMethod(serialized: string, options: Options)
    ensures ApiGet(options).verb == Some("GET") && ApiGet(options).body == options.body
    ensures ApiDelete(options).verb == Some("DELETE") && ApiDelete(options).body == options.body
    ensures ApiPost(serialized, options).verb == Some("POST") && ApiPost(serialized, options).body == Some(serialized)
    ensures ApiPut(serialized, options).verb == Some("PUT") && ApiPut(serialized, options).body == Some(serialized)
    ensures ApiGet(options).headers == ApiDelete(options).headers == ApiPost(serialized, options).headers
              == ApiPut(serialized, options).headers == options.headers
  {
  }
}
