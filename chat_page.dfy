/**
 * The conversation state of the browser page in public/script.js: the
 * history it keeps, the persona it announces, the image waiting to be
 * sent, and how sending a message, saving the settings and picking an
 * image change them.
 */
module ChatPage {
  import opened Wrappers
  import opened JsValues

  const PersonaInstructions: map<string, string> := map[
    "default" := "You are a helpful and friendly general-purpose assistant. Your name is Gemini.",
    "code" := "You are an expert programmer and code assistant. Provide clear, well-commented code examples. Explain complex concepts simply and concisely. Use markdown for all code blocks.",
    "design" := "You are a creative design assistant. Help brainstorm UI/UX ideas, color palettes, and layout concepts. Be visual and descriptive in your suggestions.",
    "research" := "You are a research assistant. Provide factual, well-sourced information. Summarize long texts, find data, and cite your sources when possible.",
    "creative" := "You are a creative writing partner. Help write stories, poems, and scripts. Be imaginative and inspiring."
  ]

  const ChatErrorText: string :=
    "There was an error connecting to the backend. Please ensure the server is running and configured to accept persona instructions."

  const ImageErrorText: string := "Sorry, I couldn't process the image with the backend."

  /** `(Persona: ${personaInstructions[persona]})`; an unknown key interpolates as "undefined". */
  function PersonaLine(persona: string): (r: string)
    ensures r == "(Persona: undefined)" <==> persona !in PersonaInstructions
    ensures |r| >= 11 && r[..10] == "(Persona: " && r[|r| - 1] == ')'
  {
    "(Persona: " + (if persona in PersonaInstructions then PersonaInstructions[persona] else "undefined") + ")"
  }

  /** A history entry `{role, parts: [{text}]}`; every entry the page pushes has exactly one part. */
  datatype HistoryTurn = HistoryTurn(role: string, text: Value)

  /** An element of the outgoing `messages`: `{role, content}`. */
  datatype OutgoingMessage = OutgoingMessage(role: string, content: Value)

  /** A File chosen in the image picker. */
  datatype ImageFile = ImageFile(name: string, mimeType: string, bytes: seq<byte>)

  /** A request the page posts to the backend. */
  datatype BackendCall = ChatCall(messages: seq<OutgoingMessage>) | ImageCall(prompt: string, image: ImageFile)

  /**
   * How an awaited `fetch` ends: the request fails, or a response arrives
   * with its `ok` flag and its body, `None` when the body is not JSON.
   */
  datatype FetchOutcome = NetworkError | HttpReply(ok: bool, json: Option<Value>)

  /** `{role: msg.role, content: msg.parts[0].text}`. */
  function ToOutgoing(turn: HistoryTurn): OutgoingMessage {
    OutgoingMessage(turn.role, turn.text)
  }

  /** `chatHistory.map(...)`: the history, entry for entry and in order. */
  function Mirror(history: seq<HistoryTurn>): (r: seq<OutgoingMessage>)
    ensures |r| == |history|
    ensures forall i | 0 <= i < |history| :: r[i] == OutgoingMessage(history[i].role, history[i].text)
    decreases |history|
  {
    if |history| == 0 then []
    else
      var rest := Mirror(history[1..]);
      assert forall i | 1 <= i < |history| :: history[i] == history[1..][i - 1];
      [ToOutgoing(history[0])] + rest
  }

  /**
   * The `messages` of the chat payload: a user turn announcing the persona,
   * then every history entry in order.
   */
  function OutgoingMessages(persona: string, history: seq<HistoryTurn>): (r: seq<OutgoingMessage>)
    ensures |r| == |history| + 1
    ensures r[0] == OutgoingMessage("user", Str(PersonaLine(persona)))
    ensures forall i | 0 <= i < |history| :: r[i + 1] == OutgoingMessage(history[i].role, history[i].text)
  {
    [OutgoingMessage("user", Str(PersonaLine(persona)))] + Mirror(history)
  }

  /**
   * The reply getChatResponse keeps: `result.reply` of an ok JSON response;
   * `None` when it lands in the catch block (failed request, non-ok status,
   * a body that is not JSON, or a `null` body whose `.reply` throws).
   */
  function ChatReply(outcome: FetchOutcome): Option<Value> {
    match outcome
    case NetworkError => None
    case HttpReply(ok, json) =>
      if ok && json.Some? && !Nullish(json.value) then Some(Member(json.value, Field("reply"))) else None
  }

  /** What getImageResponse returns: `result.result`, or the fixed apology when it lands in the catch block. */
  function ImageReply(outcome: FetchOutcome): Value {
    match outcome
    case NetworkError => Str(ImageErrorText)
    case HttpReply(ok, json) =>
      if ok && json.Some? && !Nullish(json.value) then Member(json.value, Field("result")) else Str(ImageErrorText)
  }

  /**
   * The backend as the page sees it through `fetch`. The outcome of a post
   * is decided by `answer`, a fixed function of the call and of how many
   * calls came before it; `log` records every call in order.
   */
  class Backend {
    var log: seq<BackendCall>
    const answer: (BackendCall, nat) -> FetchOutcome

    constructor (answer: (BackendCall, nat) -> FetchOutcome)
      ensures log == [] && this.answer == answer
    {
      log := [];
      this.answer := answer;
    }

    method Post(call: BackendCall) returns (outcome: FetchOutcome)
      modifies this`log
      ensures log == old(log) + [call]
      ensures outcome == answer(call, |old(log)|)
    {
      outcome := answer(call, |log|);
      log := log + [call];
    }
  }

  /** The page's module-level state: `chatHistory`, `currentPersona`, `pendingImageFile`. */
  class ChatSession {
    var chatHistory: seq<HistoryTurn>
    var currentPersona: string
    var pendingImageFile: Option<ImageFile>
    const backend: Backend

    constructor (backend: Backend)
      ensures chatHistory == [] && currentPersona == "default" && pendingImageFile == None
      ensures this.backend == backend
    {
      chatHistory := [];
      currentPersona := "default";
      pendingImageFile := None;
      this.backend := backend;
    }

    /** loadPreferences: a saved persona that is present and non-empty becomes the current one. */
    method LoadPreferences(saved: Option<string>)
      modifies this`currentPersona
      ensures currentPersona == if saved.Some? && saved.value != "" then saved.value else old(currentPersona)
    {
      if saved.Some? && saved.value != "" {
        currentPersona := saved.value;
      }
    }

    /** The image input's change handler: a chosen file becomes the pending image. */
    method SelectImage(file: Option<ImageFile>)
      modifies this`pendingImageFile
      ensures pendingImageFile == if file.Some? then file else old(pendingImageFile)
    {
      if file.Some? {
        pendingImageFile := file;
      }
    }

    /** The save-settings handler: the selected persona becomes current and the history starts afresh. */
    method SaveSettings(selectedPersona: string)
      modifies this`currentPersona, this`chatHistory
      ensures currentPersona == selectedPersona
      ensures chatHistory == []
      ensures pendingImageFile == old(pendingImageFile)
    {
      currentPersona := selectedPersona;
      chatHistory := [];
    }

    /**
     * getChatResponse: the user turn is appended before sending; the payload
     * is the persona turn followed by the whole history. On a usable reply
     * exactly one model turn holding it is appended and the reply returned;
     * otherwise only the user turn stays and the fixed error text is returned.
     */
    method GetChatResponse(prompt: string) returns (reply: Value)
      modifies this`chatHistory, backend
      ensures var sent := OutgoingMessages(currentPersona, old(chatHistory) + [HistoryTurn("user", Str(prompt))]);
        backend.log == old(backend.log) + [ChatCall(sent)] &&
        var answer := ChatReply(backend.answer(ChatCall(sent), |old(backend.log)|));
        (answer.Some? ==>
          chatHistory == old(chatHistory) + [HistoryTurn("user", Str(prompt)), HistoryTurn("model", answer.value)] &&
          reply == answer.value) &&
        (answer.None? ==>
          chatHistory == old(chatHistory) + [HistoryTurn("user", Str(prompt))] &&
          reply == Str(ChatErrorText))
    {
      chatHistory := chatHistory + [HistoryTurn("user", Str(prompt))];
      var payload := OutgoingMessages(currentPersona, chatHistory);
      var outcome := backend.Post(ChatCall(payload));
      var answer := ChatReply(outcome);
      if answer.Some? {
        chatHistory := chatHistory + [HistoryTurn("model", answer.value)];
        reply := answer.value;
      } else {
        reply := Str(ChatErrorText);
      }
    }

    /** getImageResponse: one post of the prompt and the file; the history is not touched. */
    method GetImageResponse(prompt: string, image: ImageFile) returns (reply: Value)
      modifies backend
      ensures backend.log == old(backend.log) + [ImageCall(prompt, image)]
      ensures reply == ImageReply(backend.answer(ImageCall(prompt, image), |old(backend.log)|))
    {
      var outcome := backend.Post(ImageCall(prompt, image));
      reply := ImageReply(outcome);
    }

    /**
     * handleSendMessage: blank input (after trimming) does nothing. With an
     * image pending the trimmed message goes to the image endpoint, the
     * history stays as it was and the pending image is cleared; otherwise
     * it goes through getChatResponse. The result is the bot message shown.
     */
    method HandleSendMessage(input: string) returns (shown: Option<Value>)
      modifies this`chatHistory, this`pendingImageFile, backend
      ensures Trim(input) == [] ==>
        shown == None && chatHistory == old(chatHistory) &&
        pendingImageFile == old(pendingImageFile) && backend.log == old(backend.log)
      ensures Trim(input) != [] && old(pendingImageFile).Some? ==>
        var call := ImageCall(Trim(input), old(pendingImageFile).value);
        chatHistory == old(chatHistory) && pendingImageFile == None &&
        backend.log == old(backend.log) + [call] &&
        shown == Some(ImageReply(backend.answer(call, |old(backend.log)|)))
      ensures Trim(input) != [] && old(pendingImageFile).None? ==>
        var message := Trim(input);
        var sent := OutgoingMessages(currentPersona, old(chatHistory) + [HistoryTurn("user", Str(message))]);
        pendingImageFile == None && backend.log == old(backend.log) + [ChatCall(sent)] &&
        var answer := ChatReply(backend.answer(ChatCall(sent), |old(backend.log)|));
        (answer.Some? ==>
          chatHistory == old(chatHistory) + [HistoryTurn("user", Str(message)), HistoryTurn("model", answer.value)] &&
          shown == Some(answer.value)) &&
        (answer.None? ==>
          chatHistory == old(chatHistory) + [HistoryTurn("user", Str(message))] &&
          shown == Some(Str(ChatErrorText)))
    {
      var message := Trim(input);
      if message == [] {
        return None;
      }
      var botMessage: Value;
      if pendingImageFile.Some? {
        botMessage := GetImageResponse(message, pendingImageFile.value);
        pendingImageFile := None;
      } else {
        botMessage := GetChatResponse(message);
      }
      shown := Some(botMessage);
    }
  }
}
