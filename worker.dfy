/**
 * The translation worker (`components/api.js`): it answers CORS preflight,
 * reads the text, mode, style and stream flag from the query string (GET) or
 * the JSON body (POST), routes old-style recommendation requests to their own
 * handler, validates the text, truncates it, picks the system prompt for the
 * mode and calls the model, streaming or not.
 *
 * The model is an oracle `ai`; the prompts are named, not reproduced.
 */
module Worker {
  import opened Wrappers
  import opened Text

  /** The fields of a parsed JSON body that the worker reads. A field that is
      absent or not a string is `None`; `streamIsTrue` is `body.stream === true`. */
  datatype Body = Body(
    text: Option<string>,
    query: Option<string>,
    mode: Option<string>,
    style: Option<string>,
    streamIsTrue: bool)

  /** An incoming request: its method (`verb`), its query parameters in order, and its
      body as `request.json()` reads it (`None` when that throws, or when the
      body is JSON on whose value reading a field throws, e.g. `null`). */
  datatype Request = Request(verb: string, params: seq<(string, string)>, body: Option<Body>)

  /** The system prompts. */
  datatype Template = ComboPrompt | EmojifyPrompt | XiaohongshuPrompt | DefaultPrompt | RecommendationPrompt

  /** One `env.AI.run` call: the system prompt, the user message, and whether
      a stream was asked for. */
  datatype AiCall = AiCall(template: Template, userText: string, stream: bool)

  /** What the call does: it resolves with a `response`, or throws with a message. */
  datatype AiOutcome = Answered(response: string) | Threw(message: string)

  type Ai = AiCall -> AiOutcome

  /** The responses the worker produces. */
  datatype Response =
    | Preflight                                    // no body, CORS headers only
    | JsonError(status: nat, error: string)        // `{success: false, error}`
    | PlainError(status: nat, message: string)     // a plain-text body
    | EventStream                                  // the model's event stream, passed through
    | Translation(translatedText: string, mode: string, style: string)  // `{success: true, ...}`
    | Uncaught(message: string)                    // an exception escapes `fetch`

  /** A response together with the model call made to produce it, if any. */
  datatype Handled = Handled(response: Response, call: Option<AiCall>)

  const MaxText: nat := 1000
  const MaxQuery: nat := 100

  // ---------------------------------------------------------------------------
  // Query parameters and JavaScript truthiness

  /** `searchParams.has(name)`. */
  predicate HasParam(params: seq<(string, string)>, name: string) {
    exists i :: 0 <= i < |params| && params[i].0 == name
  }

  /** `searchParams.get(name)`: the first value given for `name`, or `null`. */
  function Param(params: seq<(string, string)>, name: string): (r: Option<string>)
    ensures r.None? <==> !HasParam(params, name)
    ensures r.Some? ==> exists i :: (0 <= i < |params| && params[i] == (name, r.value)
      && forall j :: 0 <= j < i ==> params[j].0 != name)
  {
    if params == [] then None
    else if params[0].0 == name then Some(params[0].1)
    else
      var r := Param(params[1..], name);
      assert forall i :: 1 <= i < |params| ==> params[i] == params[1..][i - 1];
      assert HasParam(params[1..], name) ==> HasParam(params, name);
      assert r.Some? ==> exists i :: (0 <= i < |params| && params[i] == (name, r.value)
        && forall j :: 0 <= j < i ==> params[j].0 != name) by {
        if r.Some? {
          var i :| 0 <= i < |params[1..]| && params[1..][i] == (name, r.value)
            && forall j :: 0 <= j < i ==> params[1..][j].0 != name;
          assert params[i + 1] == (name, r.value);
        }
      }
      r
  }

  /** A string value that JavaScript counts as true: present and not `""`. */
  predicate Truthy(v: Option<string>) {
    v.Some? && v.value != ""
  }

  /** `v || fallback`. */
  function Or(v: Option<string>, fallback: string): string {
    if Truthy(v) then v.value else fallback
  }

  // ---------------------------------------------------------------------------
  // What the request asks for

  /** The text: `query || text || ''` on GET, `body.text || body.query || ''` on POST. */
  function InputText(req: Request): string {
    if req.verb == "GET" then Or(Param(req.params, "query"), Or(Param(req.params, "text"), ""))
    else if req.verb == "POST" && req.body.Some? then Or(req.body.value.text, Or(req.body.value.query, ""))
    else ""
  }

  /** The mode: `emoji-combo` by default on GET, `emojify` otherwise. */
  function ModeOf(req: Request): string {
    if req.verb == "GET" then Or(Param(req.params, "mode"), "emoji-combo")
    else if req.verb == "POST" && req.body.Some? then Or(req.body.value.mode, "emojify")
    else "emojify"
  }

  function StyleOf(req: Request): string {
    if req.verb == "GET" then Or(Param(req.params, "style"), "standard")
    else if req.verb == "POST" && req.body.Some? then Or(req.body.value.style, "standard")
    else "standard"
  }

  /** Streaming only for the exact parameter value `"true"`, or a body field `true`. */
  predicate StreamRequested(req: Request) {
    if req.verb == "GET" then Param(req.params, "stream") == Some("true")
    else req.verb == "POST" && req.body.Some? && req.body.value.streamIsTrue
  }

  /** The old recommendation API: a GET with a `query` parameter and no `mode`
      parameter, or a POST whose body has a non-empty `query` and no non-empty `mode`. */
  predicate IsLegacy(req: Request) {
    if req.verb == "GET" then HasParam(req.params, "query") && !HasParam(req.params, "mode")
    else req.verb == "POST" && req.body.Some? && Truthy(req.body.value.query) && !Truthy(req.body.value.mode)
  }

  /** What a legacy request hands to the recommendation handler: the extracted
      text on GET, `body.query` on POST. */
  function LegacyQuery(req: Request): string {
    if req.verb == "GET" then InputText(req)
    else if req.body.Some? then Or(req.body.value.query, "")
    else ""
  }

  // ---------------------------------------------------------------------------
  // Prompt choice, truncation and the model's errors

  /** The `switch (mode)`: the three known modes have their own prompt; any
      other mode gets the default one. */
  function TemplateFor(mode: string): (t: Template)
    ensures t == DefaultPrompt <==> mode != "emoji-combo" && mode != "emojify" && mode != "xiaohongshu"
    ensures t == ComboPrompt <==> mode == "emoji-combo"
    ensures t == EmojifyPrompt <==> mode == "emojify"
    ensures t == XiaohongshuPrompt <==> mode == "xiaohongshu"
    ensures t != RecommendationPrompt
  {
    if mode == "emoji-combo" then ComboPrompt
    else if mode == "emojify" then EmojifyPrompt
    else if mode == "xiaohongshu" then XiaohongshuPrompt
    else DefaultPrompt
  }

  /** The 500 error text: the exception's message, or `Unknown error` when it is empty. */
  function AiErrorText(message: string): (e: string)
    ensures StartsWith(e, "Error processing with AI: ")
    ensures |e| > |"Error processing with AI: "|
    ensures message != "" ==> e == "Error processing with AI: " + message
    ensures message == "" ==> e == "Error processing with AI: " + "Unknown error"
  {
    "Error processing with AI: " + (if message == "" then "Unknown error" else message)
  }

  /** `handleEmojiRecommendation`: an empty query is refused with a plain 400;
      otherwise its first 100 characters go to the model as a stream. Nothing
      catches an exception of the model here. */
  function Recommend(query: string, ai: Ai): (h: Handled)
    ensures query == "" <==> h.call.None?
    ensures query == "" ==> h.response == PlainError(400, "No query provided")
    ensures h.call.Some? ==> h.call.value.template == RecommendationPrompt && h.call.value.stream
    ensures h.call.Some? ==> |h.call.value.userText| == (if |query| <= MaxQuery then |query| else MaxQuery)
    ensures h.call.Some? ==> StartsWith(query, h.call.value.userText)
    ensures h.call.Some? && ai(h.call.value).Answered? ==> h.response == EventStream
    ensures h.call.Some? && ai(h.call.value).Threw? ==> h.response == Uncaught(ai(h.call.value).message)
  {
    if query == "" then Handled(PlainError(400, "No query provided"), None)
    else
      var call := AiCall(RecommendationPrompt, Prefix(query, MaxQuery), true);
      match ai(call)
      case Answered(_) => Handled(EventStream, Some(call))
      case Threw(message) => Handled(Uncaught(message), Some(call))
  }

  // ---------------------------------------------------------------------------
  // The handler

  /** `fetch(request, env)`. */
  method Fetch(req: Request, ai: Ai) returns (h: Handled)
    ensures req.verb == "OPTIONS" ==> h == Handled(Preflight, None)
    ensures req.verb == "POST" && req.body.None? ==>
      h == Handled(JsonError(400, "Invalid JSON body"), None)
    ensures req.verb != "OPTIONS" && !(req.verb == "POST" && req.body.None?) && IsLegacy(req) ==>
      h == Recommend(LegacyQuery(req), ai)
    ensures req.verb != "OPTIONS" && !(req.verb == "POST" && req.body.None?) && !IsLegacy(req) ==>
      if InputText(req) == "" then h == Handled(JsonError(400, "No text provided"), None)
      else
        var call := AiCall(TemplateFor(ModeOf(req)), Prefix(InputText(req), MaxText), StreamRequested(req));
        h.call == Some(call)
        && h.response == match ai(call)
          case Threw(message) => JsonError(500, AiErrorText(message))
          case Answered(text) => if call.stream then EventStream else Translation(text, ModeOf(req), StyleOf(req))
    ensures req.verb != "OPTIONS" && req.verb != "GET" && req.verb != "POST" ==>
      h == Handled(JsonError(400, "No text provided"), None)
    ensures h.call.Some? ==> h.call.value.userText != "" && |h.call.value.userText| <= MaxText
  {
    if req.verb == "OPTIONS" {
      return Handled(Preflight, None);
    }

    var inputText := "";
    var mode := "emojify";
    var style := "standard";
    var streamOutput := false;

    if req.verb == "GET" {
      inputText := Or(Param(req.params, "query"), Or(Param(req.params, "text"), ""));
      mode := Or(Param(req.params, "mode"), "emoji-combo");
      style := Or(Param(req.params, "style"), "standard");
      streamOutput := Param(req.params, "stream") == Some("true");
      if HasParam(req.params, "query") && !HasParam(req.params, "mode") {
        return Recommend(inputText, ai);
      }
    } else if req.verb == "POST" {
      if req.body.None? {
        return Handled(JsonError(400, "Invalid JSON body"), None);
      }
      var body := req.body.value;
      inputText := Or(body.text, Or(body.query, ""));
      mode := Or(body.mode, "emojify");
      style := Or(body.style, "standard");
      streamOutput := body.streamIsTrue;
      if Truthy(body.query) && !Truthy(body.mode) {
        return Recommend(body.query.value, ai);
      }
    }

    if inputText == "" {
      return Handled(JsonError(400, "No text provided"), None);
    }

    var truncatedText := Prefix(inputText, MaxText);
    var systemPrompt := TemplateFor(mode);
    var call := AiCall(systemPrompt, truncatedText, streamOutput);
    match ai(call) {
      case Threw(message) =>
        h := Handled(JsonError(500, AiErrorText(message)), Some(call));
      case Answered(text) =>
        if streamOutput {
          h := Handled(EventStream, Some(call));
        } else {
          h := Handled(Translation(text, mode, style), Some(call));
        }
    }
  }

  // ---------------------------------------------------------------------------
  // Properties of the request classification

  /** The same two values sent as `query` and `text` are preferred in opposite
      orders: GET takes `query`, POST takes `text`. Without a mode, GET
      defaults to `emoji-combo` and POST to `emojify`. */
  lemma PreferenceReversed(q: string, t: string)
    requires q != "" && t != ""
    ensures var get := Request("GET", [("query", q), ("text", t)], None);
      InputText(get) == q && ModeOf(get) == "emoji-combo" && IsLegacy(get)
    ensures var post := Request("POST", [], Some(Body(Some(t), Some(q), Some("emojify"), None, false)));
      InputText(post) == t && !IsLegacy(post)
    ensures var post := Request("POST", [], Some(Body(None, Some(q), None, None, false)));
      InputText(post) == q && ModeOf(post) == "emojify" && IsLegacy(post)
  {
    var get := Request("GET", [("query", q), ("text", t)], None);
    assert get.params[0].0 == "query";
    assert get.params[1].0 == "text";
    assert !HasParam(get.params, "mode") by {
      assert forall i :: 0 <= i < |get.params| ==> get.params[i].0 != "mode";
    }
  }

  /** A GET with an empty `query` and no `mode` is still a legacy request; it is
      answered from the `text` parameter when there is one. */
  lemma EmptyLegacyQueryUsesText(t: string, ai: Ai)
    requires t != ""
    ensures var get := Request("GET", [("query", ""), ("text", t)], None);
      IsLegacy(get) && LegacyQuery(get) == t
      && Recommend(LegacyQuery(get), ai).call == Some(AiCall(RecommendationPrompt, Prefix(t, MaxQuery), true))
  {
    var get := Request("GET", [("query", ""), ("text", t)], None);
    assert get.params[0].0 == "query" && "query" != "text";
    assert Param(get.params, "query") == Some("");
    assert get.params[1..] == [("text", t)];
    assert Param(get.params, "text") == Some(t);
    assert InputText(get) == t;
    assert !HasParam(get.params, "mode") by {
      assert forall i :: 0 <= i < |get.params| ==> get.params[i].0 != "mode";
    }
  }
}
