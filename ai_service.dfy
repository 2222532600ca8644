/**
 * The OpenAI chat-completion service (backend/services/ai_service.py).
 * Without a key it answers with a canned text; with one it sends the
 * context (as a system message) and the text (as a user message) and
 * returns the stripped reply, falling back to an apology when anything
 * on the live path raises. The HTTP POST is the `post` parameter and the
 * clock reading is `now`.
 */
module AiService {
  import opened Common
  import opened Json
  import opened Payloads

  const DefaultModel := "gpt-3.5-turbo"
  const DefaultMaxTokens := 1000
  const CompletionsUrl := "https://api.openai.com/v1/chat/completions"

  /** OPENAI_API_KEY, AI_MODEL and MAX_TOKENS as read at start-up. */
  datatype Config = Config(apiKey: Option<string>, model: string, maxTokens: int)

  /** `os.getenv` with its defaults: a variable that is set, even to "", is kept. */
  function ConfigFromEnv(key: Option<string>, model: Option<string>, maxTokens: Option<int>): (c: Config)
    ensures c.apiKey == key
    ensures c.model == (if model.Some? then model.value else DefaultModel)
    ensures c.maxTokens == (if maxTokens.Some? then maxTokens.value else DefaultMaxTokens)
  {
    Config(key, model.GetOr(DefaultModel), maxTokens.GetOr(DefaultMaxTokens))
  }

  datatype Message = Message(role: string, content: string)

  /** The chat transcript sent upstream: an optional system message, then the user's text. */
  function Messages(text: string, context: Option<string>): (m: seq<Message>)
    ensures |m| == (if Truthy(context) then 2 else 1)
    ensures m[|m| - 1] == Message("user", text)
    ensures Truthy(context) ==> m[0] == Message("system", context.value)
  {
    (if Truthy(context) then [Message("system", context.value)] else []) + [Message("user", text)]
  }

  /** The transcript built by appending, as the service does. */
  method BuildMessages(text: string, context: Option<string>) returns (messages: seq<Message>)
    ensures messages == Messages(text, context)
  {
    messages := [];
    if Truthy(context) {
      messages := messages + [Message("system", context.value)];
    }
    messages := messages + [Message("user", text)];
  }

  /** What goes to the completions endpoint. */
  datatype ChatRequest = ChatRequest(url: string, authorization: string, model: string,
                                     messages: seq<Message>, maxTokens: int)

  /**
   * The endpoint's answer: status, raw body text, and the first choice's
   * message content (`Err` when the body lacks it or is not JSON).
   */
  datatype ChatReply = ChatReply(status: int, text: string, content: Result<string>)

  /** `_make_openai_request` after the POST returned: content on 200, an exception otherwise. */
  function ReadCompletion(reply: ChatReply): (r: Result<string>)
    ensures r.Ok? <==> reply.status == 200 && reply.content.Ok?
    ensures r.Ok? ==> r.value == Trim(reply.content.value, PySpace)
  {
    if reply.status != 200 then Err("OpenAI API error: " + IntToString(reply.status) + " - " + reply.text)
    else if reply.content.Err? then reply.content
    else Ok(Trim(reply.content.value, PySpace))
  }

  /** The live path: build the request, POST it, read the completion. */
  function LiveReply(cfg: Config, text: string, context: Option<string>,
                     post: ChatRequest -> Result<ChatReply>): Result<string>
    requires cfg.apiKey.Some?
  {
    var reply := post(ChatRequest(CompletionsUrl, "Bearer " + cfg.apiKey.value, cfg.model,
                                  Messages(text, context), cfg.maxTokens));
    if reply.Err? then Err(reply.msg) else ReadCompletion(reply.value)
  }

  /** How the context appears in the canned text: itself when truthy, else None. */
  function ContextShown(context: Option<string>): string {
    if Truthy(context) then context.value else "None"
  }

  const OpenAiMockHead := "This is a mock AI response to your input: '"
  const OpenAiMockTail := "...'. To enable real AI responses, please set your OPENAI_API_KEY environment variable. Context provided: "

  /**
   * The canned OpenAI text shared by the Python, Java and Node backends,
   * given the echoed prefix of the input and the context as shown.
   */
  function OpenAiMockText(echo: string, shown: string): (s: string)
    ensures ContainsSub(s, echo)
    ensures EndsWith(s, OpenAiMockTail + shown)
  {
    ContainsMiddle(OpenAiMockHead, echo, OpenAiMockTail + shown);
    EndsWithAppend(OpenAiMockHead + echo, OpenAiMockTail + shown);
    OpenAiMockHead + echo + (OpenAiMockTail + shown)
  }

  /** `_mock_response`: both variants quote the first 100 characters of the input. */
  function MockText(text: string, context: Option<string>, error: bool): (s: string)
    ensures ContainsSub(s, Take(text, 100))
    ensures !error ==> EndsWith(s, OpenAiMockTail + ContextShown(context))
  {
    var echo := Take(text, 100);
    if error then
      var head := "I apologize, but I'm currently experiencing technical difficulties. However, I can see you asked about: '";
      var tail := "...' Please try again later or check your API configuration.";
      ContainsMiddle(head, echo, tail);
      head + echo + tail
    else
      OpenAiMockText(echo, ContextShown(context))
  }

  function MockResponse(text: string, context: Option<string>, error: bool, now: string): TextResponse {
    TextResponse(MockText(text, context, error), now)
  }

  /** `process_text`: canned without a key, the live reply when it works, the apology when it raises. */
  function ProcessText(cfg: Config, text: string, context: Option<string>, now: string,
                       post: ChatRequest -> Result<ChatReply>): (r: TextResponse)
    ensures r.timestamp == now
    ensures !Truthy(cfg.apiKey) ==> r == MockResponse(text, context, false, now)
    ensures Truthy(cfg.apiKey) && LiveReply(cfg, text, context, post).Ok? ==>
      r.response == LiveReply(cfg, text, context, post).value
    ensures Truthy(cfg.apiKey) && LiveReply(cfg, text, context, post).Err? ==>
      r == MockResponse(text, context, true, now)
  {
    if !Truthy(cfg.apiKey) then MockResponse(text, context, false, now)
    else
      var live := LiveReply(cfg, text, context, post);
      if live.Ok? then TextResponse(live.value, now) else MockResponse(text, context, true, now)
  }

  /** Without a key nothing is posted: the answer does not depend on the client. */
  lemma NoKeyNoRequest(cfg: Config, text: string, context: Option<string>, now: string,
                       p1: ChatRequest -> Result<ChatReply>, p2: ChatRequest -> Result<ChatReply>)
    requires !Truthy(cfg.apiKey)
    ensures ProcessText(cfg, text, context, now, p1) == ProcessText(cfg, text, context, now, p2)
  {
  }

  /** The apology ignores the context; the canned answer differs only in how it shows it. */
  lemma ErrorTextIgnoresContext(text: string, c1: Option<string>, c2: Option<string>)
    ensures MockText(text, c1, true) == MockText(text, c2, true)
  {
  }

  /** `get_service_info`: `api_configured` is the truthiness of the key. */
  function ServiceInfo(cfg: Config): (j: Json)
    ensures j.JObj? && j.fields.Keys == {"model", "max_tokens", "api_configured", "service"}
    ensures j.fields["api_configured"] == JBool(Truthy(cfg.apiKey))
  {
    JObj(map["model" := JStr(cfg.model), "max_tokens" := JNum(cfg.maxTokens),
             "api_configured" := JBool(Truthy(cfg.apiKey)), "service" := JStr("OpenAI GPT")])
  }
}
