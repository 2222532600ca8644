/**
 * The Google Gemini service (backend/services/gemini_service.py): the key
 * comes from GEMINI_API_KEY or, failing that, from the stripped contents
 * of config/gemini_api_key.txt; with a key the text (prefixed by the
 * context when there is one) goes to the model and the stripped reply is
 * returned, and any failure on that path yields an apology. The model call
 * is the `generate` parameter (`Err`: it raised) and the clock is `now`.
 */
module Gemini {
  import opened Common
  import opened Json
  import opened Payloads

  const DefaultModel := "gemini-pro"
  const DefaultMaxTokens := 1000

  /** What reading config/gemini_api_key.txt gives. */
  datatype KeyFile = Absent | Unreadable | Contents(text: string)

  /** `_get_api_key`: a truthy environment value wins, then the stripped file, else None. */
  function GetApiKey(env: Option<string>, file: KeyFile): (k: Option<string>)
    ensures Truthy(env) ==> k == env
    ensures !Truthy(env) && file.Contents? ==> k == Some(Trim(file.text, PySpace))
    ensures !Truthy(env) && !file.Contents? ==> k.None?
  {
    if Truthy(env) then env
    else if file.Contents? then Some(Trim(file.text, PySpace))
    else None
  }

  /** The environment variable makes the file irrelevant. */
  lemma EnvTakesPrecedence(env: Option<string>, f1: KeyFile, f2: KeyFile)
    requires Truthy(env)
    ensures GetApiKey(env, f1) == GetApiKey(env, f2)
  {
  }

  /** A key file holding only white space leaves the service unconfigured. */
  lemma BlankKeyFileUnconfigured(env: Option<string>, text: string)
    requires !Truthy(env) && AllSpace(text, PySpace)
    ensures !IsConfigured(Config(GetApiKey(env, Contents(text)), DefaultModel, DefaultMaxTokens))
  {
    TrimBlank(text, PySpace);
  }

  datatype Config = Config(apiKey: Option<string>, modelName: string, maxTokens: int)

  /** The prompt: the bare text, or the context and the text under labels. */
  function Prompt(text: string, context: Option<string>): (p: string)
    ensures ContainsSub(p, text)
    ensures Truthy(context) ==> ContainsSub(p, context.value)
    ensures !Truthy(context) ==> p == text
  {
    if Truthy(context) then
      ContainsBoth("Context: ", context.value, "\n\nUser: ", text);
      "Context: " + context.value + "\n\nUser: " + text
    else
      assert text <= text;
      text
  }

  const RequestFailed := "Gemini API request failed: "

  /** `_make_gemini_request` after the call: a truthy text is stripped, otherwise it raises. */
  function ReadGeneration(reply: Result<string>): (r: Result<string>)
    ensures r.Ok? <==> reply.Ok? && reply.value != ""
    ensures r.Ok? ==> r.value == Trim(reply.value, PySpace)
    ensures r.Err? ==> RequestFailed <= r.msg
  {
    if reply.Err? then Err(RequestFailed + reply.msg)
    else if reply.value == "" then Err(RequestFailed + "No response text generated")
    else Ok(Trim(reply.value, PySpace))
  }

  /** A reply of white space only is returned as an empty response rather than rejected. */
  lemma BlankReplyAccepted(t: string)
    requires t != "" && AllSpace(t, PySpace)
    ensures ReadGeneration(Ok(t)) == Ok("")
  {
    TrimBlank(t, PySpace);
  }

  const ErrorHead := "I apologize, but I'm currently experiencing technical difficulties with the Gemini AI service. However, I can see you asked about: '"
  const ErrorTail := "...' Please try again later or check your Gemini API configuration."
  const MockHead := "This is a mock Gemini AI response to your input: '"
  const MockTail := "...'. To enable real Gemini AI responses, please set your GEMINI_API_KEY environment variable or add it to the config/gemini_api_key.txt file. Context provided: "

  function ContextShown(context: Option<string>): string {
    if Truthy(context) then context.value else "None"
  }

  /** `_mock_response`: both variants quote the first 100 characters of the input. */
  function MockText(text: string, context: Option<string>, error: bool): (s: string)
    ensures ContainsSub(s, Take(text, 100))
    ensures !error ==> EndsWith(s, MockTail + ContextShown(context))
  {
    var echo := Take(text, 100);
    if error then
      ContainsMiddle(ErrorHead, echo, ErrorTail);
      ErrorHead + echo + ErrorTail
    else
      ContainsMiddle(MockHead, echo, MockTail + ContextShown(context));
      EndsWithAppend(MockHead + echo, MockTail + ContextShown(context));
      MockHead + echo + (MockTail + ContextShown(context))
  }

  function MockResponse(text: string, context: Option<string>, error: bool, now: string): TextResponse {
    TextResponse(MockText(text, context, error), now)
  }

  /** The live path: prompt the model with the configured output limit and read its text. */
  function LiveReply(cfg: Config, text: string, context: Option<string>,
                     generate: (string, int) -> Result<string>): Result<string> {
    ReadGeneration(generate(Prompt(text, context), cfg.maxTokens))
  }

  /** `process_text`: canned without a key, the model's text when it works, the apology otherwise. */
  function ProcessText(cfg: Config, text: string, context: Option<string>, now: string,
                       generate: (string, int) -> Result<string>): (r: TextResponse)
    ensures r.timestamp == now
    ensures !Truthy(cfg.apiKey) ==> r == MockResponse(text, context, false, now)
    ensures Truthy(cfg.apiKey) && LiveReply(cfg, text, context, generate).Ok? ==>
      r.response == LiveReply(cfg, text, context, generate).value
    ensures Truthy(cfg.apiKey) && LiveReply(cfg, text, context, generate).Err? ==>
      r == MockResponse(text, context, true, now)
  {
    if !Truthy(cfg.apiKey) then MockResponse(text, context, false, now)
    else
      var live := LiveReply(cfg, text, context, generate);
      if live.Ok? then TextResponse(live.value, now) else MockResponse(text, context, true, now)
  }

  /** An empty model answer is not passed on: the caller sees the apology. */
  lemma EmptyGenerationApologises(cfg: Config, text: string, context: Option<string>, now: string,
                                  generate: (string, int) -> Result<string>)
    requires Truthy(cfg.apiKey) && generate(Prompt(text, context), cfg.maxTokens) == Ok("")
    ensures ProcessText(cfg, text, context, now, generate) == MockResponse(text, context, true, now)
  {
  }

  /** `get_service_info`. */
  function ServiceInfo(cfg: Config): (j: Json)
    ensures j.JObj? && j.fields.Keys == {"provider", "model", "max_tokens", "api_configured", "service"}
    ensures j.fields["api_configured"] == JBool(IsConfigured(cfg))
  {
    JObj(map["provider" := JStr("Google Gemini"), "model" := JStr(cfg.modelName),
             "max_tokens" := JNum(cfg.maxTokens), "api_configured" := JBool(Truthy(cfg.apiKey)),
             "service" := JStr("Google Gemini AI")])
  }

  /** `is_configured`: the key is truthy. */
  function IsConfigured(cfg: Config): (b: bool)
    ensures b <==> cfg.apiKey.Some? && cfg.apiKey.value != ""
  {
    Truthy(cfg.apiKey)
  }
}
