/**
 * The chat page's script (frontend/ai-chat.js): a send guard that admits
 * one request at a time, the reading of the backend's answer, and the
 * offline fallback that replies from canned lists chosen by keyword when
 * the backend cannot be reached. The backend call is the `backend`
 * parameter of `Settle`, given the request body the page posts;
 * `Math.random` is a nondeterministic choice of index.
 */
module AiChat {
  import opened Common
  import opened Keywords

  /** The context every chat request carries. */
  const ChatContext := "Student Helper AI Chat"

  const Apology := "I received your message but couldn't generate a proper response. Please try again."

  const OfflineNote := "\U{26A0}\U{FE0F} Note: I'm currently using offline responses. For better AI assistance, please ensure the backend server is running."

  /** The keyword groups, in the order they are tried. */
  const Groups: seq<seq<string>> := [
    ["calculus", "derivative", "integral", "math"],
    ["photosynthesis", "plant", "biology"],
    ["history", "essay", "historical"],
    ["schedule", "study plan", "time management"]]

  /** Category k names group k; the last one is used when no group matches. */
  const Categories: seq<string> := ["calculus", "photosynthesis", "history", "schedule", "default"]

  const CalculusReplies: seq<string> := [
    "I'd be happy to help with calculus! What specific topic are you working on? Integration, derivatives, limits, or something else?",
    "Calculus can be challenging, but it's very logical once you understand the fundamentals. What problem are you stuck on?",
    "For calculus, I recommend breaking down complex problems into smaller steps. What would you like to work on?"]

  const PhotosynthesisReplies: seq<string> := [
    "Photosynthesis is the process by which plants convert sunlight, carbon dioxide, and water into glucose and oxygen.",
    "There are two main stages of photosynthesis: the light-dependent reactions and the light-independent reactions or Calvin cycle.",
    "Photosynthesis occurs in chloroplasts and uses chlorophyll to capture light energy. Would you like me to explain any specific part in more detail?"]

  const HistoryReplies: seq<string> := [
    "History essays require strong thesis statements, evidence from primary sources, and clear analysis. What historical period are you writing about?",
    "For history essays, start with a compelling introduction, organize your body paragraphs chronologically or thematically, and conclude with the significance of your topic.",
    "When writing history essays, always cite your sources and analyze rather than just summarize events. What's your essay topic?"]

  const ScheduleReplies: seq<string> := [
    "A good study schedule should balance different subjects, include regular breaks, and account for your most productive hours. What subjects do you need to schedule?",
    "I recommend using the Pomodoro Technique: 25 minutes of focused study followed by a 5-minute break. Would you like help creating a weekly schedule?",
    "Effective scheduling involves prioritizing tasks by deadline and difficulty. What's your biggest scheduling challenge?"]

  const DefaultReplies: seq<string> := [
    "I'm here to help with your studies! You can ask me about any subject, homework help, study tips, or academic planning.",
    "That's an interesting question! Could you provide more details so I can give you a more specific answer?",
    "I'd be happy to assist you with that. Can you tell me more about what you're working on?",
    "Let me help you with that! What specific aspect would you like me to focus on?",
    "Great question! I can help you understand this topic better. What would you like to know?"]

  /** `fallbackResponses[category] || fallbackResponses['default']`. */
  function RepliesFor(category: string): (r: seq<string>)
    ensures |r| >= 3
    ensures category !in Categories ==> r == DefaultReplies
    ensures category == "default" ==> r == DefaultReplies
  {
    match category
    case "calculus" => CalculusReplies
    case "photosynthesis" => PhotosynthesisReplies
    case "history" => HistoryReplies
    case "schedule" => ScheduleReplies
    case _ => DefaultReplies
  }

  /** The category `generateFallbackResponse` picks: the first group found in the lower-cased message. */
  function FallbackCategory(message: string): (c: string)
    ensures c in Categories
    ensures c == "default" <==> forall j :: 0 <= j < |Groups| ==> !AnyIn(Groups[j], Lower(message))
    ensures forall k :: 0 <= k < |Groups| && c == Categories[k] ==>
      AnyIn(Groups[k], Lower(message)) && forall j :: 0 <= j < k ==> !AnyIn(Groups[j], Lower(message))
  {
    Categories[FirstMatch(Groups, Lower(message))]
  }

  /** A message naming "essay" without a calculus or biology keyword gets a history reply. */
  lemma EssayIsHistory(a: string, b: string)
    requires !AnyIn(Groups[0], Lower(a + "essay" + b)) && !AnyIn(Groups[1], Lower(a + "essay" + b))
    ensures FallbackCategory(a + "essay" + b) == "history"
  {
    assert Lower(a + "essay" + b) == Lower(a) + "essay" + Lower(b);
    WordFound(Groups[2], "essay", Lower(a), Lower(b));
  }

  /** `getRandomResponse`: some reply of the category's list (the default list for an unknown one). */
  method GetRandomResponse(category: string) returns (reply: string)
    ensures reply in RepliesFor(category)
  {
    var replies := RepliesFor(category);
    var i :| 0 <= i < |replies|;
    reply := replies[i];
  }

  /** `generateFallbackResponse`. */
  method GenerateFallbackResponse(userMessage: string) returns (reply: string)
    ensures reply in RepliesFor(FallbackCategory(userMessage))
  {
    reply := GetRandomResponse(FallbackCategory(userMessage));
  }

  /**
   * What `fetch` to the process-text endpoint gave: nothing (the request or
   * the JSON parse threw), or an answer with its `ok` flag, status and the
   * `response` field of its body.
   */
  datatype BackendOutcome = Unreachable | Reply(ok: bool, status: int, response: Option<string>)

  /** The JSON body posted to the process-text endpoint. */
  datatype ChatRequest = ChatRequest(text: string, context: string)

  /** `{ text: message, context: 'Student Helper AI Chat' }`: the message with the page's fixed context. */
  function RequestFor(message: string): (q: ChatRequest)
    ensures q.text == message && q.context == ChatContext
  {
    ChatRequest(message, ChatContext)
  }

  /** `getAIResponseFromBackend`: a non-OK answer throws; a missing or empty reply becomes the apology. */
  function ReadBackend(outcome: BackendOutcome): (r: Result<string>)
    ensures r.Err? <==> outcome.Unreachable? || !outcome.ok
    ensures r.Ok? && Truthy(outcome.response) ==> r.value == outcome.response.value
    ensures r.Ok? && !Truthy(outcome.response) ==> r.value == Apology
    ensures r.Ok? ==> r.value != ""
  {
    if outcome.Unreachable? then Err("network error")
    else if !outcome.ok then Err("HTTP " + IntToString(outcome.status))
    else if Truthy(outcome.response) then Ok(outcome.response.value)
    else Ok(Apology)
  }

  /** The guard of `sendMessage`: the trimmed message to send, or None when the call does nothing. */
  function Admit(isProcessing: bool, input: string): (m: Option<string>)
    ensures m.Some? <==> !isProcessing && !AllSpace(input, JsSpace)
    ensures m.Some? ==> m.value == Trim(input, JsSpace) && m.value != ""
  {
    TrimBlank(input, JsSpace);
    if isProcessing then None
    else
      var message := Trim(input, JsSpace);
      if message == "" then None else Some(message)
  }

  datatype Sender = User | Ai
  datatype Line = Line(sender: Sender, content: string)

  /**
   * The page's state: the input box, the messages shown, the
   * `isProcessing` flag and the message of the request in flight.
   */
  class ChatPage {
    var input: string
    var transcript: seq<Line>
    var isProcessing: bool
    var pending: Option<string>

    /** A request is in flight exactly while the flag is set. */
    predicate Valid()
      reads this
    {
      isProcessing <==> pending.Some?
    }

    constructor ()
      ensures Valid() && !isProcessing && input == "" && transcript == []
    {
      input := "";
      transcript := [];
      isProcessing := false;
      pending := None;
    }

    /** The user types into the box. */
    method Type(text: string)
      modifies this
      requires Valid()
      ensures Valid()
      ensures input == text
      ensures transcript == old(transcript) && isProcessing == old(isProcessing) && pending == old(pending)
    {
      input := text;
    }

    /**
     * `sendMessage`: while a request is in flight, or for a blank input,
     * nothing happens; otherwise the flag is set, the trimmed message is
     * shown and becomes the request in flight, and the box is cleared.
     */
    method Send()
      modifies this
      requires Valid()
      ensures Valid()
      ensures Admit(old(isProcessing), old(input)).None? ==>
        input == old(input) && transcript == old(transcript)
        && isProcessing == old(isProcessing) && pending == old(pending)
      ensures Admit(old(isProcessing), old(input)).Some? ==>
        var message := Admit(old(isProcessing), old(input)).value;
        isProcessing && pending == Some(message) && input == ""
        && transcript == old(transcript) + [Line(User, message)]
    {
      var message := Admit(isProcessing, input);
      if message.Some? {
        isProcessing := true;
        pending := message;
        transcript := transcript + [Line(User, message.value)];
        input := "";
      }
    }

    /**
     * The request in flight settles: the backend's reply is shown, or a
     * fallback reply followed by the offline note; either way the flag is
     * cleared (the `finally`).
     */
    method Settle(backend: ChatRequest -> BackendOutcome)
      modifies this
      requires Valid() && isProcessing
      ensures Valid() && !isProcessing && input == old(input)
      ensures var outcome := backend(RequestFor(old(pending).value));
        ReadBackend(outcome).Ok? ==>
        transcript == old(transcript) + [Line(Ai, ReadBackend(outcome).value)]
      ensures var outcome := backend(RequestFor(old(pending).value));
        ReadBackend(outcome).Err? ==>
        |transcript| == |old(transcript)| + 2 && transcript[..|old(transcript)|] == old(transcript)
        && transcript[|old(transcript)|].sender == Ai
        && transcript[|old(transcript)|].content in RepliesFor(FallbackCategory(old(pending).value))
        && transcript[|old(transcript)| + 1] == Line(Ai, OfflineNote)
    {
      var reply := ReadBackend(backend(RequestFor(pending.value)));
      if reply.Ok? {
        transcript := transcript + [Line(Ai, reply.value)];
      } else {
        var fallback := GenerateFallbackResponse(pending.value);
        transcript := transcript + [Line(Ai, fallback), Line(Ai, OfflineNote)];
      }
      isProcessing := false;
      pending := None;
    }
  }

  /** `filterTasks`: a task is displayed iff the filter is 'all' or equals its `data-status`. */
  function TaskShown(filter: string, status: Option<string>): (b: bool)
    ensures filter == "all" ==> b
    ensures filter != "all" ==> (b <==> status.Some? && status.value == filter)
  {
    filter == "all" || status == Some(filter)
  }

  /** Every filter but 'all' shows exactly the tasks of its own status, so two such filters share none. */
  lemma FiltersSeparateTasks(f: string, g: string, status: Option<string>)
    requires f != g && f != "all" && g != "all"
    ensures !(TaskShown(f, status) && TaskShown(g, status))
    ensures TaskShown(f, status) <==> status == Some(f)
    ensures TaskShown("all", status)
  {
  }
}
