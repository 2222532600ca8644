/**
 * The canned tutor the FastAPI apps are wired to
 * (backend/services/simple_gemini_service.py): it never calls a model.
 * It chooses one of eight reply templates by the first of seven keyword
 * groups found in the lower-cased text, quotes the whole text inside it,
 * and appends the context when one is given. The key is looked up exactly
 * as in `Gemini.GetApiKey` but only feeds `api_configured`.
 */
module SimpleGemini {
  import opened Common
  import opened Json
  import opened Payloads
  import opened Keywords

  const Groups: seq<seq<string>> := [
    ["calculus", "derivative", "integral", "math", "algebra"],
    ["photosynthesis", "biology", "plant", "cellular"],
    ["history", "historical", "war", "revolution", "ancient"],
    ["schedule", "study", "plan", "time management"],
    ["essay", "writing", "paper", "assignment"],
    ["chemistry", "chemical", "reaction", "molecule"],
    ["physics", "force", "energy", "motion", "gravity"]]

  /**
   * Template k is Openers[k] + text + Closers[k]; the last one (index 7)
   * is the general reply used when no group matches.
   */
  const Openers: seq<string> := [
    "I'd be happy to help you with your math question about '",
    "Great biology question! Regarding '",
    "That's an interesting history question about '",
    "I can definitely help with your study planning question: '",
    "For your writing question about '",
    "Chemistry can be fascinating! Regarding '",
    "Physics question about '",
    "Thanks for your question: '"]

  const Closers: seq<string> := [
    "'. Calculus involves understanding rates of change (derivatives) and accumulation (integrals). What specific concept would you like me to explain?",
    "', photosynthesis is how plants convert sunlight into energy. The process involves chloroplasts capturing light energy to convert CO\U{00E2}\U{201A}\U{201A} and water into glucose and oxygen. Would you like me to explain any specific stage?",
    "'. When studying history, it's important to consider the social, political, and economic contexts of events. What specific historical period or aspect would you like to explore?",
    "'. Effective study schedules should include regular breaks, varied subjects, and align with your most productive hours. What subjects are you trying to balance?",
    "', good essays need a clear thesis, strong evidence, and logical organization. Start with an outline, support your arguments with credible sources, and always proofread. What type of essay are you working on?",
    "', chemical reactions involve the breaking and forming of bonds between atoms. Understanding electron configurations and molecular structures is key. What chemistry concept would you like me to clarify?",
    "' - great! Physics explains how our universe works through fundamental forces and energy. Whether it's mechanics, thermodynamics, or electromagnetism, everything follows predictable laws. What physics concept interests you?",
    "'. I'm here to help with your studies! I can assist with math, science, history, writing, study planning, and more. Could you provide more details about what specific help you need?"]

  /** Index of the template used: the first matching group, or 7 when none matches. */
  function SelectTemplate(text: string): (k: nat)
    ensures k <= 7
    ensures forall j :: 0 <= j < k ==> !AnyIn(Groups[j], Lower(text))
    ensures k < 7 ==> AnyIn(Groups[k], Lower(text))
  {
    FirstMatch(Groups, Lower(text))
  }

  const ErrorHead := "I apologize, but I'm currently experiencing technical difficulties with the AI service. However, I can see you asked about: '"
  const ErrorTail := "...' Please try again later or check your AI configuration."

  function ContextNote(context: Option<string>): string {
    if Truthy(context) then " (Context considered: " + context.value + ")" else ""
  }

  /** The reply before any context note: the apology, or the chosen template around the text. */
  function MockBase(text: string, error: bool): string {
    if error then ErrorHead + Take(text, 100) + ErrorTail
    else Openers[SelectTemplate(text)] + text + Closers[SelectTemplate(text)]
  }

  /**
   * `_mock_response`: the apology quotes the first 100 characters; the
   * templated reply quotes the whole text and ends with the context note.
   */
  function MockText(text: string, context: Option<string>, error: bool): (s: string)
    ensures error ==> ContainsSub(s, Take(text, 100))
    ensures !error ==> ContainsSub(s, text)
    ensures !error ==> var k := SelectTemplate(text);
      Openers[k] <= s && EndsWith(s, ContextNote(context))
  {
    if error then
      Framed(ErrorHead, Take(text, 100), ErrorTail, "");
      MockBase(text, error) + ""
    else
      var k := SelectTemplate(text);
      Framed(Openers[k], text, Closers[k], ContextNote(context));
      MockBase(text, error) + ContextNote(context)
  }

  /** The context only ever appends to the reply, and never enters the apology. */
  lemma ContextOnlyAppends(text: string, context: Option<string>, error: bool)
    ensures MockText(text, context, error)
         == MockText(text, None, error) + (if error then "" else ContextNote(context))
  {
    assert MockBase(text, error) + "" == MockBase(text, error);
  }

  function MockResponse(text: string, context: Option<string>, error: bool, now: string): TextResponse {
    TextResponse(MockText(text, context, error), now)
  }

  /** `process_text` always gives the templated reply, whatever the key. */
  function ProcessText(apiKey: Option<string>, text: string, context: Option<string>, now: string): (r: TextResponse)
    ensures r == MockResponse(text, context, false, now)
    ensures r.timestamp == now && ContainsSub(r.response, text)
    ensures Openers[SelectTemplate(text)] <= r.response && EndsWith(r.response, ContextNote(context))
  {
    MockResponse(text, context, false, now)
  }

  /** A text naming "essay" but no keyword of an earlier group gets the writing template. */
  lemma EssayGetsWritingTemplate(a: string, b: string)
    requires forall j :: 0 <= j < 4 ==> !AnyIn(Groups[j], Lower(a + "essay" + b))
    ensures SelectTemplate(a + "essay" + b) == 4
  {
    assert Lower(a + "essay" + b) == Lower(a) + "essay" + Lower(b);
    WordFound(Groups[4], "essay", Lower(a), Lower(b));
  }

  /** `get_service_info`: `api_configured` reflects the key even though it is never used. */
  function ServiceInfo(apiKey: Option<string>, maxTokens: int): (j: Json)
    ensures j.JObj? && j.fields.Keys == {"provider", "model", "max_tokens", "api_configured", "service", "note"}
    ensures j.fields["api_configured"] == JBool(Truthy(apiKey))
    ensures j.fields["model"] == JStr("educational-assistant")
  {
    JObj(map["provider" := JStr("Mock AI Service"), "model" := JStr("educational-assistant"),
             "max_tokens" := JNum(maxTokens), "api_configured" := JBool(Truthy(apiKey)),
             "service" := JStr("Student Helper AI Mock Service"),
             "note" := JStr("Using mock responses - install google-generativeai for real AI")])
  }

  /** `is_configured` holds whatever the key. */
  function IsConfigured(apiKey: Option<string>): (b: bool)
    ensures b
  {
    true
  }
}
