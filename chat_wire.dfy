/**
 * The HTTP boundary between the page (public/script.js) and the server
 * (index.js): a value crosses it as `JSON.parse(JSON.stringify(v))`, the
 * page's chat payload is the body `express.json()` hands to POST /chat, and
 * the server's `{reply}` answer is what `response.json()` gives back to the
 * page. The lemmas say that what the page sends is accepted by the route
 * and what the route answers is what the page keeps.
 */
module ChatWire {
  import opened Wrappers
  import opened JsValues
  import opened GeminiProxy
  import opened ChatPage

  /**
   * `JSON.parse(JSON.stringify(v))`: object properties holding `undefined`
   * are dropped and `undefined` array elements become `null`; a bare
   * `undefined` has no JSON text and stays `undefined`.
   */
  function Jsonify(v: Value): (r: Value)
    ensures r.Undefined? <==> v.Undefined?
    decreases v
  {
    match v
    case Arr(s) => Arr(seq(|s|, i requires 0 <= i < |s| => if s[i].Undefined? then Null else Jsonify(s[i])))
    case Obj(m) => Obj(map k | k in m && !m[k].Undefined? :: Jsonify(m[k]))
    case _ => v
  }

  /** A value JSON can carry unchanged: no `undefined` anywhere in it. */
  predicate IsJson(v: Value)
    decreases v
  {
    match v
    case Undefined => false
    case Arr(s) => forall i | 0 <= i < |s| :: IsJson(s[i])
    case Obj(m) => forall k | k in m :: IsJson(m[k])
    case _ => true
  }

  /** Whatever is defined comes out of the round trip as a JSON value. */
  lemma {:induction false} JsonifyYieldsJson(v: Value)
    requires !v.Undefined?
    ensures IsJson(Jsonify(v))
    decreases v
  {
    match v
    case Arr(s) =>
      forall i | 0 <= i < |s| && !s[i].Undefined?
        ensures IsJson(Jsonify(s[i]))
      {
        JsonifyYieldsJson(s[i]);
      }
    case Obj(m) =>
      forall k | k in m && !m[k].Undefined?
        ensures IsJson(Jsonify(m[k]))
      {
        JsonifyYieldsJson(m[k]);
      }
    case _ =>
  }

  /** A JSON value survives the round trip unchanged. */
  lemma {:induction false} JsonifyKeepsJson(v: Value)
    requires IsJson(v)
    ensures Jsonify(v) == v
    decreases v
  {
    match v
    case Arr(s) =>
      forall i | 0 <= i < |s|
        ensures Jsonify(s[i]) == s[i]
      {
        JsonifyKeepsJson(s[i]);
      }
      assert Jsonify(v).elems == s;
    case Obj(m) =>
      forall k | k in m
        ensures Jsonify(m[k]) == m[k]
      {
        JsonifyKeepsJson(m[k]);
      }
      assert Jsonify(v).fields == m;
    case _ =>
  }

  /** Sending a value twice gives what sending it once gives. */
  lemma JsonifyIdempotent(v: Value)
    ensures Jsonify(Jsonify(v)) == Jsonify(v)
  {
    if !v.Undefined? {
      JsonifyYieldsJson(v);
      JsonifyKeepsJson(Jsonify(v));
    }
  }

  /** One element of the payload's `messages` as a JavaScript object. */
  function MessageObject(m: OutgoingMessage): Value {
    Obj(map["role" := Str(m.role), "content" := m.content])
  }

  /** The JSON text the page posts to /chat, as `req.body` sees it after `express.json()`. */
  function ChatRequestBody(messages: seq<OutgoingMessage>): (r: Value)
    ensures r.Obj? && "messages" in r.fields
    ensures r.fields["messages"].Arr? && |r.fields["messages"].elems| == |messages|
    ensures forall i | 0 <= i < |messages| ::
      r.fields["messages"].elems[i] == Jsonify(MessageObject(messages[i]))
  {
    var posted := Arr(seq(|messages|, i requires 0 <= i < |messages| => MessageObject(messages[i])));
    var payload := Obj(map["messages" := posted]);
    assert "messages" in Jsonify(payload).fields && Jsonify(payload).fields["messages"] == Jsonify(posted);
    assert forall i | 0 <= i < |messages| :: Jsonify(posted).elems[i] == Jsonify(posted.elems[i]);
    Jsonify(payload)
  }

  /** A received message's `content`: the page's value after the round trip, absent when it was `undefined`. */
  lemma ContentAfterTrip(m: OutgoingMessage)
    ensures Member(Jsonify(MessageObject(m)), Field("role")) == Str(m.role)
    ensures Member(Jsonify(MessageObject(m)), Field("content")) == Jsonify(m.content)
    ensures !Nullish(Jsonify(MessageObject(m)))
  {
    var o := Jsonify(MessageObject(m));
    assert "role" in o.fields;
    if m.content.Undefined? {
      assert "content" !in o.fields;
    } else {
      assert "content" in o.fields;
    }
  }

  /**
   * Every payload the page builds gets past all of /chat's guards: the body
   * and `messages` are truthy, `messages` is an array, no element is null,
   * and the provider receives one turn per message, the persona line first
   * and then the history in order with each content as the page held it.
   */
  lemma {:induction false} ChatPayloadAccepted(persona: string, history: seq<HistoryTurn>)
    ensures var body := ChatRequestBody(OutgoingMessages(persona, history));
      !Falsy(body) && !Falsy(Member(body, Field("messages"))) && Member(body, Field("messages")).Arr?
    ensures var turns := ChatTurns(Member(ChatRequestBody(OutgoingMessages(persona, history)), Field("messages")).elems);
      turns.Success? && |turns.value| == |history| + 1 &&
      turns.value[0] == Turn(Str("user"), [TextPart(Str(PersonaLine(persona)))]) &&
      forall i | 0 <= i < |history| ::
        turns.value[i + 1] == Turn(Str(history[i].role), [TextPart(Jsonify(history[i].text))])
  {
    var sent := OutgoingMessages(persona, history);
    var body := ChatRequestBody(sent);
    var received := Member(body, Field("messages")).elems;
    assert |received| == |sent|;
    forall i | 0 <= i < |sent|
      ensures !Nullish(received[i])
      ensures Member(received[i], Field("role")) == Str(sent[i].role)
      ensures Member(received[i], Field("content")) == Jsonify(sent[i].content)
    {
      ContentAfterTrip(sent[i]);
    }
    var turns := ChatTurns(received);
    assert turns.Success?;
    assert turns.value[0] == Turn(Str("user"), [TextPart(Str(PersonaLine(persona)))]);
    forall i | 0 <= i < |history|
      ensures turns.value[i + 1] == Turn(Str(history[i].role), [TextPart(Jsonify(history[i].text))])
    {
      assert sent[i + 1] == OutgoingMessage(history[i].role, history[i].text);
    }
  }

  /** `response.ok`: a status in the 2xx range. */
  predicate Ok(status: nat) {
    200 <= status < 300
  }

  /** How a handler's response reaches the page's `fetch`. */
  function Delivered(res: HttpResponse): FetchOutcome {
    HttpReply(Ok(res.status), Some(Jsonify(res.body)))
  }

  /**
   * What the page keeps from a /chat answer: a provider failure (500)
   * becomes the page's error text, and a resolved call hands the page the
   * extracted text after its trip through JSON.
   */
  lemma ChatReplyReachesPage(outcome: ProviderOutcome, rt: Runtime)
    ensures ChatReply(Delivered(Respond(outcome, "reply", rt))).Some? <==> outcome.Resolved?
    ensures outcome.Resolved? ==>
      ChatReply(Delivered(Respond(outcome, "reply", rt))).value == Jsonify(ExtractGeneratedText(outcome.response, rt))
  {
    if outcome.Resolved? {
      var t := ExtractGeneratedText(outcome.response, rt);
      var o := Jsonify(Respond(outcome, "reply", rt).body);
      if t.Undefined? {
        assert "reply" !in o.fields;
      } else {
        assert "reply" in o.fields;
      }
    }
  }

  /** The 400 answers of /chat (a bare JSON string) never reach the history. */
  lemma ChatRefusalIsError(message: string)
    ensures ChatReply(Delivered(HttpResponse(400, Str(message)))) == None
  {
  }

  /** The multipart form the page posts to /generate-text-from-image, as multer hands it over. */
  function ImageFormBody(prompt: string): Value {
    Obj(map["prompt" := Str(prompt)])
  }

  /**
   * The uploaded part as multer hands it over: the multipart encoding labels
   * a File whose `type` is empty as `application/octet-stream`.
   */
  function ImageFormFile(image: ImageFile): Option<UploadedFile> {
    Some(UploadedFile(PartContentType(image), image.bytes))
  }

  /** The Content-Type of the file's part in the form the page posts. */
  function PartContentType(image: ImageFile): (r: string)
    ensures r != []
  {
    if image.mimeType == [] then "application/octet-stream" else image.mimeType
  }

  /**
   * What the page posts with a pending image (`prompt` and the file) gets
   * past the image route's guards exactly when the prompt is non-empty, as
   * it always is after HandleSendMessage's blank check. The provider then
   * receives the prompt as the text part, followed by the image's mime type
   * (`application/octet-stream` when the File has none) and bytes as base64
   * inline data.
   */
  lemma ImagePayloadAccepted(prompt: string, image: ImageFile, rt: Runtime)
    ensures Falsy(Member(ImageFormBody(prompt), Field("prompt"))) <==> prompt == []
    ensures ImageFormFile(image).Some?
    ensures var body := ImageFormBody(prompt);
      var file := ImageFormFile(image).value;
      GenerateRequest(GeminiModel, PartContents([TextPart(Member(body, Field("prompt"))),
                                                 InlineDataPart(file.mimetype, rt.base64(file.buffer))]), None)
      == GenerateRequest(GeminiModel, PartContents([TextPart(Str(prompt)),
                                                    InlineDataPart(PartContentType(image), rt.base64(image.bytes))]), None)
  {
  }

  /** The image route's answer reaches the page as `result.result`, or as the apology when it is not 2xx. */
  lemma ImageReplyReachesPage(outcome: ProviderOutcome, rt: Runtime)
    ensures outcome.Resolved? ==>
      ImageReply(Delivered(Respond(outcome, "result", rt))) == Jsonify(ExtractGeneratedText(outcome.response, rt))
    ensures outcome.Rejected? ==> ImageReply(Delivered(Respond(outcome, "result", rt))) == Str(ImageErrorText)
  {
    if outcome.Resolved? {
      var t := ExtractGeneratedText(outcome.response, rt);
      var o := Jsonify(Respond(outcome, "result", rt).body);
      if t.Undefined? {
        assert "result" !in o.fields;
      } else {
        assert "result" in o.fields;
      }
    }
  }
}
