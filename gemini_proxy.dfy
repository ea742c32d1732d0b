/**
 * The Express backend of index.js: the model-name table, the defensive
 * response-text extractor, the provider payloads of the three routes and
 * the routes themselves (validate, call the provider once, answer 200,
 * 400 or 500).
 */
module GeminiProxy {
  import opened Wrappers
  import opened JsValues

  // -----------------------------------------------------------------------
  // Model selection: modelMapper and determineGeminiModel
  // -----------------------------------------------------------------------

  const GeminiModel: string := "gemini-2.5-flash"

  const ModelMapper: map<string, string> :=
    map["flash" := "gemini-2.5-flash", "flash-lite" := "gemini-2.5-flash-lite"]

  /** The property names every object literal inherits from Object.prototype. */
  const ObjectPrototypeMembers: set<string> := {
    "constructor", "__defineGetter__", "__defineSetter__", "hasOwnProperty",
    "__lookupGetter__", "__lookupSetter__", "isPrototypeOf",
    "propertyIsEnumerable", "toString", "valueOf", "__proto__", "toLocaleString"
  }

  /** The property key a lookup `obj[key]` uses: `undefined` is looked up as "undefined". */
  function PropertyKey(key: Option<string>): string {
    match key
    case None => "undefined"
    case Some(s) => s
  }

  /** What `modelMapper[key] ?? GEMINI_MODEL` can evaluate to. */
  datatype MapperLookup = ModelId(id: string) | PrototypeMember(name: string)

  /**
   * determineGeminiModel as written: `modelMapper[key]` also finds the
   * members inherited from Object.prototype, which are not nullish, so
   * `??` keeps them instead of falling back to the default model.
   */
  function DetermineGeminiModelAsWritten(key: Option<string>): (r: MapperLookup)
    ensures r.PrototypeMember? <==> PropertyKey(key) in ObjectPrototypeMembers
    ensures r.ModelId? ==> r.id in ModelMapper.Values
  {
    assert ModelMapper["flash"] == GeminiModel;
    var k := PropertyKey(key);
    if k in ModelMapper then ModelId(ModelMapper[k])
    else if k in ObjectPrototypeMembers then PrototypeMember(k)
    else ModelId(GeminiModel)
  }

  /** The key "toString" yields Object.prototype.toString, not a model name. */
  lemma PrototypeKeyEscapesDefault()
    ensures DetermineGeminiModelAsWritten(Some("toString")) == PrototypeMember("toString")
    ensures DetermineGeminiModelAsWritten(Some("toString")) != ModelId(GeminiModel)
  {
    assert "toString" !in ModelMapper;
  }

  /**
   * determineGeminiModel as intended: the mapped identifier for a key of the
   * table, the default identifier for every other key and for `undefined`.
   * The function is total and always names a model of the table.
   */
  function DetermineGeminiModel(key: Option<string>): (r: string)
    ensures PropertyKey(key) in ModelMapper ==> r == ModelMapper[PropertyKey(key)]
    ensures PropertyKey(key) !in ModelMapper ==> r == GeminiModel
    ensures r in ModelMapper.Values
    ensures key == Some("flash") ==> r == "gemini-2.5-flash"
    ensures key == Some("flash-lite") ==> r == "gemini-2.5-flash-lite"
  {
    assert ModelMapper["flash"] == GeminiModel;
    var k := PropertyKey(key);
    if k in ModelMapper then ModelMapper[k] else GeminiModel
  }

  /** As written and as intended agree on exactly the keys that are not Object.prototype names. */
  lemma AsWrittenAgreesOffPrototype(key: Option<string>)
    ensures DetermineGeminiModelAsWritten(key) == ModelId(DetermineGeminiModel(key))
            <==> PropertyKey(key) !in ObjectPrototypeMembers
  {
    var k := PropertyKey(key);
    assert k in ModelMapper ==> k !in ObjectPrototypeMembers by {
      assert ModelMapper.Keys == {"flash", "flash-lite"};
    }
  }

  // -----------------------------------------------------------------------
  // extractGeneratedText
  // -----------------------------------------------------------------------

  /** `resp?.response?.candidates?.[0]?.content?.parts?.[0]?.text` (the streamed-call shape). */
  const StreamedTextPath: Path :=
    [Field("response"), Field("candidates"), Index(0), Field("content"), Field("parts"), Index(0), Field("text")]

  /** `resp?.candidates?.[0]?.content?.parts?.[0]?.text` (the direct-call shape). */
  const DirectTextPath: Path :=
    [Field("candidates"), Index(0), Field("content"), Field("parts"), Index(0), Field("text")]

  /** `resp?.response?.candidates?.[0]?.content?.text` (content as plain text). */
  const PlainContentTextPath: Path :=
    [Field("response"), Field("candidates"), Index(0), Field("content"), Field("text")]

  /** The probe list in priority order. */
  const TextPaths: seq<Path> := [StreamedTextPath, DirectTextPath, PlainContentTextPath]

  /** Node's built-ins the proxy uses but that are not modelled: JSON.stringify and base64 encoding. */
  datatype Runtime = Runtime(stringify: Value -> string, base64: seq<byte> -> string)

  /** `JSON.stringify(resp, null, 2)`: a string, except that `undefined` serialises to `undefined`. */
  function PrettyDump(resp: Value, rt: Runtime): (r: Value)
    ensures Nullish(r) <==> resp.Undefined?
  {
    if resp.Undefined? then Undefined else Str(rt.stringify(resp))
  }

  /**
   * The reference reading of the extractor: try the paths in order and
   * keep the first value that is not nullish.
   */
  function FirstPresent(v: Value, paths: seq<Path>): (r: Option<Value>)
    ensures r.None? <==> forall i | 0 <= i < |paths| :: Nullish(Probe(v, paths[i]))
    ensures r.Some? ==> !Nullish(r.value)
    ensures r.Some? ==>
      exists i | 0 <= i < |paths| :: r.value == Probe(v, paths[i]) &&
        forall j | 0 <= j < i :: Nullish(Probe(v, paths[j]))
    decreases |paths|
  {
    if |paths| == 0 then None
    else
      var first := Probe(v, paths[0]);
      if !Nullish(first) then Some(first)
      else
        var rest := FirstPresent(v, paths[1..]);
        assert forall i | 1 <= i < |paths| :: paths[i] == paths[1..][i - 1];
        rest
  }

  /**
   * extractGeneratedText, written as the chain of `??` the source uses.
   * It never fails; its result is nullish only when the response itself is
   * `undefined` (whose serialisation is `undefined` too).
   */
  function ExtractGeneratedText(resp: Value, rt: Runtime): (r: Value)
    ensures Nullish(r) <==> resp.Undefined?
  {
    var text := Coalesce(Coalesce(Probe(resp, StreamedTextPath), Probe(resp, DirectTextPath)),
                         Probe(resp, PlainContentTextPath));
    Coalesce(text, PrettyDump(resp, rt))
  }

  /** The `??` chain is the ordered probe list: first present path wins, else the dump. */
  lemma ExtractFollowsProbeOrder(resp: Value, rt: Runtime)
    ensures ExtractGeneratedText(resp, rt) ==
      match FirstPresent(resp, TextPaths)
      case Some(t) => t
      case None => PrettyDump(resp, rt)
  {
    var p1, p2, p3 := Probe(resp, StreamedTextPath), Probe(resp, DirectTextPath), Probe(resp, PlainContentTextPath);
    var rest1 := TextPaths[1..];
    var rest2 := rest1[1..];
    assert rest1 == [DirectTextPath, PlainContentTextPath] && rest2 == [PlainContentTextPath];
    assert FirstPresent(resp, rest2[1..]) == None;
    assert FirstPresent(resp, rest2) == if !Nullish(p3) then Some(p3) else None;
    assert FirstPresent(resp, rest1) == if !Nullish(p2) then Some(p2) else FirstPresent(resp, rest2);
    assert FirstPresent(resp, TextPaths) == if !Nullish(p1) then Some(p1) else FirstPresent(resp, rest1);
  }

  /** The serialised dump is returned exactly when all three paths are missing. */
  lemma ExtractDumpsOnlyWhenAllMissing(resp: Value, rt: Runtime)
    ensures (forall i | 0 <= i < |TextPaths| :: Nullish(Probe(resp, TextPaths[i]))) ==>
      ExtractGeneratedText(resp, rt) == PrettyDump(resp, rt)
    ensures !Nullish(Probe(resp, StreamedTextPath)) ==>
      ExtractGeneratedText(resp, rt) == Probe(resp, StreamedTextPath)
    ensures Nullish(Probe(resp, StreamedTextPath)) && !Nullish(Probe(resp, DirectTextPath)) ==>
      ExtractGeneratedText(resp, rt) == Probe(resp, DirectTextPath)
    ensures Nullish(Probe(resp, StreamedTextPath)) && Nullish(Probe(resp, DirectTextPath)) &&
            !Nullish(Probe(resp, PlainContentTextPath)) ==>
      ExtractGeneratedText(resp, rt) == Probe(resp, PlainContentTextPath)
  {
    ExtractFollowsProbeOrder(resp, rt);
    assert TextPaths[0] == StreamedTextPath && TextPaths[1] == DirectTextPath && TextPaths[2] == PlainContentTextPath;
  }

  /** A present but empty text is returned as it is: `??` does not fall through on `""`. */
  lemma ExtractKeepsEmptyText(resp: Value, rt: Runtime)
    requires Probe(resp, StreamedTextPath) == Str("")
    ensures ExtractGeneratedText(resp, rt) == Str("")
  {
  }

  /** `{text}` wrapped as one part of the first candidate's content. */
  function CandidateWithText(text: Value): Value {
    Arr([Obj(map["content" := Obj(map["parts" := Arr([Obj(map["text" := text])])])])])
  }

  /** A response of the SDK's direct-call shape yields its text. */
  lemma DirectShapeYieldsText(text: string, rt: Runtime)
    ensures ExtractGeneratedText(Obj(map["candidates" := CandidateWithText(Str(text))]), rt) == Str(text)
  {
    var resp := Obj(map["candidates" := CandidateWithText(Str(text))]);
    var p := DirectTextPath;
    assert Probe(resp, p[..1]) == CandidateWithText(Str(text));
    assert p == p[..1] + p[1..];
    ProbeAppend(resp, p[..1], p[1..]);
    assert Probe(resp, StreamedTextPath) == Undefined;
    assert Probe(resp, DirectTextPath) == Str(text);
  }

  /** When both the streamed and the direct shape carry text, the streamed one wins. */
  lemma StreamedShapeWins(t1: string, t2: string, rt: Runtime)
    ensures ExtractGeneratedText(
      Obj(map["response" := Obj(map["candidates" := CandidateWithText(Str(t1))]),
              "candidates" := CandidateWithText(Str(t2))]), rt) == Str(t1)
  {
    var resp := Obj(map["response" := Obj(map["candidates" := CandidateWithText(Str(t1))]),
                        "candidates" := CandidateWithText(Str(t2))]);
    var p := StreamedTextPath;
    var inner := Obj(map["candidates" := CandidateWithText(Str(t1))]);
    assert p == p[..2] + p[2..];
    assert p[..2] == [Field("response"), Field("candidates")];
    assert Member(resp, Field("response")) == inner;
    assert Probe(inner, [Field("candidates")]) == CandidateWithText(Str(t1));
    assert Probe(resp, p[..2]) == CandidateWithText(Str(t1));
    ProbeAppend(resp, p[..2], p[2..]);
    assert Probe(resp, StreamedTextPath) == Str(t1);
  }

  // -----------------------------------------------------------------------
  // Provider payloads and the provider as an oracle
  // -----------------------------------------------------------------------

  const ChatSystemInstruction: string :=
    "Anda adalah AI yang gaul dan suka bercanda. Anda akan menjawab pertanyaan dengan cara yang menyenangkan dan menghibur."

  /** A provider content part: `{text}` or `{inlineData: {mimeType, data}}`. */
  datatype Part = TextPart(text: Value) | InlineDataPart(mimeType: string, data: string)

  /** A provider turn `{role, parts}`. */
  datatype Turn = Turn(role: Value, parts: seq<Part>)

  /** The `contents` of a generateContent call: a bare prompt, a list of turns, or a list of parts. */
  datatype Contents = PromptContents(prompt: Value) | TurnContents(turns: seq<Turn>) | PartContents(parts: seq<Part>)

  /** `{model, contents, config: {systemInstruction}}`. */
  datatype GenerateRequest = GenerateRequest(model: string, contents: Contents, systemInstruction: Option<string>)

  /** How an awaited generateContent call settles. */
  datatype ProviderOutcome = Resolved(response: Value) | Rejected(message: string)

  /** The message a TypeError carries when `msg.role` is read from null or undefined. */
  function ReadRoleError(msg: Value): string {
    if msg.Null? then "Cannot read properties of null (reading 'role')"
    else "Cannot read properties of undefined (reading 'role')"
  }

  const MapNotAFunction: string := "messages.map is not a function"

  /** `{role: msg.role, parts: [{text: msg.content}]}`. */
  function ToTurn(msg: Value): Turn {
    Turn(Member(msg, Field("role")), [TextPart(Member(msg, Field("content")))])
  }

  /**
   * `messages.map(msg => ...)`: one turn per message, in order, each with
   * the message's role and exactly one text part holding its content. The
   * map throws at the first message that is null or undefined.
   */
  function ChatTurns(messages: seq<Value>): (r: Result<seq<Turn>, string>)
    ensures r.Success? <==> forall i | 0 <= i < |messages| :: !Nullish(messages[i])
    ensures r.Success? ==> |r.value| == |messages|
    ensures r.Success? ==>
      forall i | 0 <= i < |messages| ::
        r.value[i].role == Member(messages[i], Field("role")) &&
        r.value[i].parts == [TextPart(Member(messages[i], Field("content")))]
    ensures r.Failure? ==> exists i | 0 <= i < |messages| ::
      Nullish(messages[i]) && r.error == ReadRoleError(messages[i]) &&
      forall j | 0 <= j < i :: !Nullish(messages[j])
    decreases |messages|
  {
    if |messages| == 0 then Success([])
    else if Nullish(messages[0]) then Failure(ReadRoleError(messages[0]))
    else
      var tail := messages[1..];
      assert forall i | 1 <= i < |messages| :: messages[i] == tail[i - 1];
      match ChatTurns(tail)
      case Success(rest) => Success([ToTurn(messages[0])] + rest)
      case Failure(e) => Failure(e)
  }

  /**
   * The generative-AI client. Which outcome a call has is decided by
   * `answer`, a fixed function of the request and of how many calls came
   * before it; `log` records every request in order.
   */
  class GenAiClient {
    var log: seq<GenerateRequest>
    const answer: (GenerateRequest, nat) -> ProviderOutcome

    constructor (answer: (GenerateRequest, nat) -> ProviderOutcome)
      ensures log == [] && this.answer == answer
    {
      log := [];
      this.answer := answer;
    }

    /** `await ai.models.generateContent(req)`. */
    method GenerateContent(req: GenerateRequest) returns (outcome: ProviderOutcome)
      modifies this`log
      ensures log == old(log) + [req]
      ensures outcome == answer(req, |old(log)|)
    {
      outcome := answer(req, |log|);
      log := log + [req];
    }
  }

  // -----------------------------------------------------------------------
  // The routes
  // -----------------------------------------------------------------------

  /** The status and JSON body a handler sends. */
  datatype HttpResponse = HttpResponse(status: nat, body: Value)

  /** A file parsed by multer's `upload.single('image')`. */
  datatype UploadedFile = UploadedFile(mimetype: string, buffer: seq<byte>)

  /** `res.status(400).json({error: message})`. */
  function BadRequest(message: string): HttpResponse {
    HttpResponse(400, Obj(map["error" := Str(message)]))
  }

  /**
   * The shared ending of every route: a resolved call answers 200 with the
   * extracted text under `field`, a rejected one 500 `{message}`.
   */
  function Respond(outcome: ProviderOutcome, field: string, rt: Runtime): (r: HttpResponse)
    ensures r.status == 200 <==> outcome.Resolved?
    ensures r.body.Obj? && |r.body.fields| == 1
  {
    match outcome
    case Resolved(resp) => HttpResponse(200, Obj(map[field := ExtractGeneratedText(resp, rt)]))
    case Rejected(m) => HttpResponse(500, Obj(map["message" := Str(m)]))
  }

  /**
   * POST /generate-text. A falsy `prompt` is refused with 400 before any
   * provider call; otherwise exactly one call with the default model and
   * the prompt as contents.
   */
  method GenerateText(ai: GenAiClient, rt: Runtime, body: Value) returns (res: HttpResponse)
    modifies ai
    ensures Falsy(Member(body, Field("prompt"))) ==>
      res == BadRequest("Prompt is required") && ai.log == old(ai.log)
    ensures !Falsy(Member(body, Field("prompt"))) ==>
      var req := GenerateRequest(GeminiModel, PromptContents(Member(body, Field("prompt"))), None);
      ai.log == old(ai.log) + [req] && res == Respond(ai.answer(req, |old(ai.log)|), "result", rt)
  {
    var prompt := Member(body, Field("prompt"));
    if Falsy(prompt) {
      return BadRequest("Prompt is required");
    }
    var outcome := ai.GenerateContent(GenerateRequest(GeminiModel, PromptContents(prompt), None));
    res := Respond(outcome, "result", rt);
  }

  /**
   * POST /chat. A falsy body or `messages` is answered 400 with a bare JSON
   * string and no provider call. A truthy `messages` that is not an array,
   * or one holding a null or undefined message, throws before the call and
   * is answered 500. Otherwise exactly one call with the "flash" model, the
   * messages as turns and the fixed system instruction.
   */
  method Chat(ai: GenAiClient, rt: Runtime, body: Value) returns (res: HttpResponse)
    modifies ai
    ensures Falsy(body) ==>
      res == HttpResponse(400, Str("Request body is required")) && ai.log == old(ai.log)
    ensures !Falsy(body) && Falsy(Member(body, Field("messages"))) ==>
      res == HttpResponse(400, Str("Message is required")) && ai.log == old(ai.log)
    ensures !Falsy(body) && !Falsy(Member(body, Field("messages"))) && !Member(body, Field("messages")).Arr? ==>
      res == HttpResponse(500, Obj(map["message" := Str(MapNotAFunction)])) && ai.log == old(ai.log)
    ensures !Falsy(body) && Member(body, Field("messages")).Arr? ==>
      match ChatTurns(Member(body, Field("messages")).elems)
      case Failure(e) =>
        res == HttpResponse(500, Obj(map["message" := Str(e)])) && ai.log == old(ai.log)
      case Success(turns) =>
        var req := GenerateRequest(DetermineGeminiModel(Some("flash")), TurnContents(turns), Some(ChatSystemInstruction));
        ai.log == old(ai.log) + [req] && res == Respond(ai.answer(req, |old(ai.log)|), "reply", rt)
  {
    if Falsy(body) {
      return HttpResponse(400, Str("Request body is required"));
    }
    var messages := Member(body, Field("messages"));
    if Falsy(messages) {
      return HttpResponse(400, Str("Message is required"));
    }
    if !messages.Arr? {
      return HttpResponse(500, Obj(map["message" := Str(MapNotAFunction)]));
    }
    var payload := ChatTurns(messages.elems);
    if payload.Failure? {
      return HttpResponse(500, Obj(map["message" := Str(payload.error)]));
    }
    var req := GenerateRequest(DetermineGeminiModel(Some("flash")), TurnContents(payload.value), Some(ChatSystemInstruction));
    var outcome := ai.GenerateContent(req);
    res := Respond(outcome, "reply", rt);
  }

  /**
   * POST /generate-text-from-image. The prompt is checked before the file;
   * either missing is answered 400 with its own message and no provider
   * call. Otherwise exactly one call whose contents are the text part and
   * then the inline-data part holding the file's mime type and base64 data.
   */
  method GenerateTextFromImage(ai: GenAiClient, rt: Runtime, body: Value, file: Option<UploadedFile>)
    returns (res: HttpResponse)
    modifies ai
    ensures Falsy(Member(body, Field("prompt"))) ==>
      res == BadRequest("Prompt is required") && ai.log == old(ai.log)
    ensures !Falsy(Member(body, Field("prompt"))) && file.None? ==>
      res == BadRequest("File image is required") && ai.log == old(ai.log)
    ensures !Falsy(Member(body, Field("prompt"))) && file.Some? ==>
      var parts := [TextPart(Member(body, Field("prompt"))),
                    InlineDataPart(file.value.mimetype, rt.base64(file.value.buffer))];
      var req := GenerateRequest(GeminiModel, PartContents(parts), None);
      ai.log == old(ai.log) + [req] && res == Respond(ai.answer(req, |old(ai.log)|), "result", rt)
  {
    var prompt := Member(body, Field("prompt"));
    if Falsy(prompt) {
      return BadRequest("Prompt is required");
    }
    if file.None? {
      return BadRequest("File image is required");
    }
    var imgBase64 := rt.base64(file.value.buffer);
    var parts := [TextPart(prompt), InlineDataPart(file.value.mimetype, imgBase64)];
    var outcome := ai.GenerateContent(GenerateRequest(GeminiModel, PartContents(parts), None));
    res := Respond(outcome, "result", rt);
  }
}
