# Gemini proxy, modelled in Dafny

The Gemini proxy is a small Express server (`index.js`) with a chat page (`public/script.js`). The server offers three routes:

- `POST /generate-text` sends a single prompt to Google's Gemini models.
- `POST /chat` sends a conversation.
- `POST /generate-text-from-image` sends a prompt together with an uploaded image.

Every route validates its input, then makes one call to the provider, then answers with the generated text. It takes that text from the first of three known response shapes. If none of them holds text, it uses a pretty-printed dump of the whole response instead.

The page keeps three pieces of state:

- the chat history;
- the persona chosen in the settings dialog;
- an image waiting to be sent.

To send a message, the page posts the persona line followed by the whole history. It renders replies with two fixed rewrites: `**bold**` and triple-backtick code blocks.

The project has six modules in five files:

- **`js_values.dfy`**, modules `Wrappers` and `JsValues`. This is the slice of JavaScript semantics the code relies on:
  - values as they appear in JSON bodies and SDK responses, plus `undefined`;
  - optional chaining (`Member`, `Probe`);
  - `??` (`Coalesce`), truthiness (`Falsy`) and `String.prototype.trim`.
- **`gemini_proxy.dfy`**, module `GeminiProxy`. This covers `index.js`:
  - the model table and `determineGeminiModel`;
  - `extractGeneratedText`;
  - the translation of `/chat` messages into provider turns;
  - the three route handlers, written as methods over a `GenAiClient` oracle class.
- **`chat_page.dfy`**, module `ChatPage`. This covers `public/script.js`:
  - a `ChatSession` class whose fields are the page's `chatHistory`, `currentPersona` and `pendingImageFile`;
  - a `Backend` oracle class standing in for `fetch`;
  - methods for sending a message, saving the settings, loading the saved persona and choosing an image.
- **`message_format.dfy`**, module `MessageFormat`. This is the text case of `renderContent`. The two global, non-greedy regex replacements are modelled as a leftmost-match scan with a lazy group.
- **`chat_wire.dfy`**, module `ChatWire`. This is the HTTP boundary between page and server, seen as `JSON.parse(JSON.stringify(v))`. Its lemmas prove three things:
  - every payload the page builds passes all of `/chat`'s guards and reaches the provider turn for turn;
  - the `{reply}` the server answers is what the page keeps;
  - the image route's form passes its guards, and the provider gets the prompt and the image.

Both oracles work the same way, one for the provider and one for the backend as the page sees it:

- A call's outcome is a fixed function `answer(request, n)`, where `n` is the number of calls made before it.
- Each oracle keeps a `log` of every request in order.

This lets each handler's contract say exactly which call it made, or that it made none, and what it answered for each outcome.

Two Node.js functions are the fields of `GeminiProxy.Runtime` and are left unspecified: `stringify`, for the dump `JSON.stringify(resp, null, 2)`, and `base64`, for `Buffer.toString('base64')`. The JSON round trip between page and server, `JSON.parse(JSON.stringify(v))`, is a specified function, `ChatWire.Jsonify`. It models the structure of the round trip, which is what the page and the server can observe.

Three behaviours of the code worth stating:

- `/chat` accepts an empty `messages` array and does not check roles.
- A truthy `messages` that is not an array makes the handler throw a TypeError, answered with 500. So does a `null` element.
- The page does forward the chosen persona: it sends it as the first user turn, `(Persona: …)`. The server adds its own fixed system instruction as well.

## Model

| member | source | states |
|---|---|---|
| JsValues.Coalesce | index.js:45-49 | `a ?? b` is always one of its two operands, and it is nullish only when both operands are |
| JsValues.CoalesceAssociates | index.js:45-49 | a chain `a ?? b ?? c` gives the same value however it is grouped |
| JsValues.Probe | index.js:45-47 | once a link of an optional chain is nullish, the whole chain is undefined |
| JsValues.ProbeAppend | index.js:45-47 | probing a path `p + q` is probing `p`, then `q` from where `p` ended |
| JsValues.TrimStart | public/script.js:142 | removes exactly the longest run of leading white space: the result is a suffix that starts with a non-white-space character, and everything dropped is white space |
| JsValues.TrimEnd | public/script.js:142 | removes exactly the longest run of trailing white space, stated the same way |
| JsValues.Trim | public/script.js:142 | the trimmed text is a slice `s[i..j]` of the input; every character before `i` and from `j` on is white space, and the slice is empty or starts and ends with a character that is not |
| JsValues.TrimEmptyIffBlank | public/script.js:142-143 | `input.trim() === ''` holds exactly when every character of the message is white space |
| GeminiProxy.PrototypeKeyEscapesDefault | index.js:20-27 | concrete counterexample: the key "toString" gives `Object.prototype.toString`, not the default model |
| GeminiProxy.DetermineGeminiModel | index.js:17-27 | the intended lookup, total over every key including undefined: "flash" gives gemini-2.5-flash and "flash-lite" gives gemini-2.5-flash-lite; every other key gives gemini-2.5-flash; the result is always a model of the table |
| GeminiProxy.AsWrittenAgreesOffPrototype | index.js:20-27 | the written and intended lookups agree exactly when the key is not a prototype member |
| GeminiProxy.PrettyDump | index.js:49 | the dump is nullish exactly when the response is undefined; otherwise it is the stringified response |
| GeminiProxy.FirstPresent | index.js:45-47 | the value at the first path whose probe is not nullish, with every earlier path nullish; none exactly when every path is nullish |
| GeminiProxy.ExtractGeneratedText | index.js:43-54 | the extracted value is nullish exactly when the response itself is undefined |
| GeminiProxy.ExtractFollowsProbeOrder | index.js:45-49 | the extracted text is the first present value in the order streamed shape, direct shape, plain-content shape; otherwise it is the dump |
| GeminiProxy.ExtractDumpsOnlyWhenAllMissing | index.js:49 | the dump is returned exactly when all three paths are missing; a present text is never replaced by it |
| GeminiProxy.ExtractKeepsEmptyText | index.js:45-49 | a present empty-string text is returned as it is, because `??` does not fall through on "" |
| GeminiProxy.DirectShapeYieldsText | index.js:46 | a direct-call response `candidates[0].content.parts[0].text` yields that text |
| GeminiProxy.StreamedShapeWins | index.js:45-46 | when both the streamed and the direct shape hold text, the streamed one is returned |
| GeminiProxy.ChatTurns | index.js:94-103 | translation succeeds exactly when no message is null or undefined; then there is one turn per message, in order, each keeping `role` and holding exactly one text part with `content`; on failure, the error names the first nullish message |
| GeminiProxy.GenAiClient.GenerateContent | index.js:105-112 | one provider call: it is appended to the log and its outcome is the oracle's answer for it |
| GeminiProxy.GenerateText | index.js:59-80 | a falsy prompt gives 400 `{error: 'Prompt is required'}` and no call; otherwise exactly one call with the default model and the prompt as contents, answered through Respond |
| GeminiProxy.Chat | index.js:82-117 | a falsy body, or a falsy `messages`, gives a 400 string body and no call. A non-array or a nullish message gives 500 and no call. Otherwise exactly one call with the "flash" model, the messages as turns and the fixed system instruction, answered under `reply` |
| GeminiProxy.GenerateTextFromImage | index.js:119-147 | the prompt is checked before the file, and each missing one gives its own 400 and no call; otherwise exactly one call whose contents are the text part, then the inline-data part with the file's mime type and base64 data |
| ChatPage.Mirror | public/script.js:43-46 | the history mapped entry for entry and in order to `{role, content: parts[0].text}` |
| ChatPage.OutgoingMessages | public/script.js:40-48 | `messages` has one more element than the history: element 0 is the user persona turn, and the rest mirror the history in order |
| ChatPage.Backend.Post | public/script.js:51-55 | one post: it is appended to the log and its outcome is the oracle's answer |
| ChatPage.ChatSession.constructor | public/script.js:20-22 | the page starts with an empty history, the "default" persona and no pending image |
| ChatPage.ChatSession.LoadPreferences | public/script.js:251-257 | a saved persona that is present and non-empty becomes current; otherwise nothing changes |
| ChatPage.ChatSession.SelectImage | public/script.js:210-213 | a chosen file becomes the pending image; with no file nothing changes |
| ChatPage.ChatSession.SaveSettings | public/script.js:240-248 | the selected persona becomes current and the history becomes empty; the pending image is kept |
| ChatPage.ChatSession.GetChatResponse | public/script.js:34-72 | the user turn is appended before sending, and the payload is the persona turn followed by the whole history. On a usable reply exactly one model turn holding it is appended and it is returned. Otherwise nothing beyond the user turn is appended and the fixed error text is returned |
| ChatPage.ChatSession.GetImageResponse | public/script.js:74-98 | exactly one post of the prompt and the image; the history is untouched and the result is ImageReply of the answer |
| ChatPage.ChatSession.HandleSendMessage | public/script.js:141-161 | blank input changes nothing and posts nothing. With an image pending, the trimmed message goes to the image route, the history is untouched and the pending image is cleared. Otherwise the message goes through the chat path, with its full effect on the history |
| MessageFormat.CloseAt | public/script.js:135 | the lazy group's closing delimiter, when found, lies between the group's start and the end of the text |
| MessageFormat.RewriteIdentity | public/script.js:135-136 | text with no occurrence of the delimiter is left unchanged by the replacement |
| MessageFormat.RewritePlainPrefix | public/script.js:135-136 | a prefix without the delimiter's first character is kept, and the replacement continues after it |
| MessageFormat.CloseAtFirst | public/script.js:135-136 | the lazy group closes at the first delimiter it reaches, provided every character before it may be matched |
| MessageFormat.RewriteMatch | public/script.js:135-136 | `d x d rest`, where `x` holds only matchable characters and no occurrence of the delimiter starts inside `x`, not even one running into the closing delimiter, becomes open tag, `x`, close tag, then the rewritten rest |
| MessageFormat.BoldPass | public/script.js:135 | `**x**`, where `x` has no asterisk and no line break, becomes `<strong>x</strong>`; backticks in `x` are allowed |
| MessageFormat.BoldMatch | public/script.js:135 | `**x**`, with `x` free of asterisks and line breaks, followed by anything becomes a strong element followed by the rewritten rest |
| MessageFormat.BoldAfterPlain | public/script.js:135 | a prefix without asterisks is kept in front of the strong element |
| MessageFormat.LazyBoldClosesFirst | public/script.js:135 | `*?` is non-greedy: in `**a**b**`, with `a` and `b` free of asterisks and line breaks, the first closing `**` ends the element and the last `**` stays as text |
| MessageFormat.CloseAtStopsAtLineBreak | public/script.js:135 | `.` does not match a line terminator, so no bold match can span one |
| MessageFormat.LineBreakStopsBold | public/script.js:135 | `**a` + line break + `b**`, with `a` free of asterisks and line breaks and `b` free of asterisks, is left as it was |
| MessageFormat.ClosingDelimAlone | public/script.js:135 | a lone `**` is left as it was |
| MessageFormat.BoldPassIdentity | public/script.js:135 | text without asterisks passes the bold rewrite unchanged |
| MessageFormat.CodePassIdentity | public/script.js:136 | HTML without backticks passes the code rewrite unchanged |
| MessageFormat.CodeBlock | public/script.js:136 | ```` ```h``` ```` around backtick-free text becomes the `<pre …><code>h</code></pre>` element, even when `h` spans lines (`[\s\S]`) |
| MessageFormat.UnmarkedTextIsParagraph | public/script.js:134-137 | text with neither an asterisk nor a backtick renders as itself inside `<p>…</p>` |
| MessageFormat.BoldText | public/script.js:135-137 | `**x**`, with `x` free of asterisks, backticks and line breaks, renders as `<p><strong>x</strong></p>` |
| MessageFormat.BoldInsideCode | public/script.js:135-137 | the bold pass runs first, so ```` ```**x**``` ````, with `x` free of asterisks, backticks and line breaks, comes out as a strong element inside `<pre><code>` |
| ChatWire.Jsonify | public/script.js:54 | the JSON round trip gives undefined exactly for undefined |
| ChatWire.JsonifyYieldsJson | public/script.js:54 | any defined value comes back with no `undefined` anywhere inside it |
| ChatWire.JsonifyKeepsJson | public/script.js:54 | a value holding no `undefined` survives the round trip unchanged |
| ChatWire.JsonifyIdempotent | public/script.js:54 | sending what was received gives the same value again |
| ChatWire.ChatRequestBody | public/script.js:40-55 | the body the server parses holds a `messages` array with one element per outgoing message, in order |
| ChatWire.ContentAfterTrip | index.js:97-99 | each received message is a non-null object whose `role` is the page's role and whose `content` is the page's content after the trip |
| ChatWire.ChatPayloadAccepted | index.js:84-103 | every payload the page builds passes `/chat`'s guards. The provider gets one turn per element: the persona line first, then each history entry's role and content, in order |
| ChatWire.ChatReplyReachesPage | index.js:113-116 | the page keeps a reply exactly when the provider call resolved, and it is then the extracted text after the trip. A rejection becomes the page's error text |
| ChatWire.ChatRefusalIsError | index.js:84-92 | the 400 answers of `/chat` never reach the history |
| ChatWire.ImagePayloadAccepted | index.js:119-140 | what the page posts with a pending image passes the image route's prompt guard exactly when the prompt is non-empty, and its file guard always. The provider then gets the prompt as the text part, followed by the part's Content-Type (the File's `type`, or `application/octet-stream` when that is empty) and the base64 bytes |
| ChatWire.ImageReplyReachesPage | index.js:142-146 | a resolved image call reaches the page as the extracted text, and a rejected one as the fixed apology |

## Definitions

These members define the modelled behaviour directly. Their meaning is stated by the lemmas and methods in the "## Model" table, as listed here:

- `JsValues.Member` (index.js:45-47) is one step of an optional chain. Its own contract says that a step from a nullish value is undefined, and that only objects, arrays and strings have members that are not nullish. ProbeAppend, DirectShapeYieldsText and StreamedShapeWins state what chains of it give.
- `JsValues.Falsy` (index.js:67, 84, 90, 123) is `!x`. The guarding clauses of GenerateText, Chat and GenerateTextFromImage state it. The two other truthiness tests are on optional values and are modelled as Option checks: `!file` (index.js:129) is `file.None?` in GenerateTextFromImage, and `if (savedPersona)` (public/script.js:253) is `saved.Some? && saved.value != ""` in LoadPreferences.
- `GeminiProxy.DetermineGeminiModelAsWritten` (index.js:20-27) is the lookup as written. Its own contract says that it gives a prototype member exactly for the twelve `Object.prototype` names, and that any model it gives is one of the table. PrototypeKeyEscapesDefault and AsWrittenAgreesOffPrototype state how it differs from DetermineGeminiModel.
- `GeminiProxy.ToTurn` (index.js:95-101) is the callback of `messages.map`. ChatTurns states the whole translation.
- `GeminiProxy.Respond` (index.js:76-79, 113-116, 142-146) is the answer each route sends at the end. Its own contract says that the status is 200 exactly when the call resolved, and that the body is an object with one field. ChatReplyReachesPage, ImageReplyReachesPage and the handler methods state what it gives.
- `ChatPage.PersonaLine` (public/script.js:42) is the persona message. Its own contract says that it reads `(Persona: undefined)` exactly when the persona is not a key of the table, and that it always has the `(Persona: …)` frame. OutgoingMessages and ChatPayloadAccepted state where it goes and what the provider receives.
- `ChatPage.ToOutgoing` (public/script.js:43-46) is the callback of `chatHistory.map`. Mirror states the whole mapping.
- `ChatPage.ChatReply` (public/script.js:57-71) and `ChatPage.ImageReply` (public/script.js:86-97) are what the page keeps from a response. ChatReplyReachesPage, ChatRefusalIsError and ImageReplyReachesPage state it for every answer the server can give.
- `MessageFormat.Rewrite` (public/script.js:135-136) is a global replacement with a lazy group. RewriteIdentity, RewritePlainPrefix, RewriteMatch and the bold and code lemmas state its effect.
- `MessageFormat.RenderText` (public/script.js:134-137) is the text case of `renderContent`. UnmarkedTextIsParagraph, BoldText and BoldInsideCode state what it renders.
- `ChatWire.Delivered` (index.js:113; public/script.js:57-62) is how a handler's answer reaches `fetch`. ChatReplyReachesPage, ChatRefusalIsError and ImageReplyReachesPage state what the page does with it.
- `ChatWire.MessageObject`, `ChatWire.ImageFormBody` and `ChatWire.ImageFormFile` (public/script.js:40-48, 76-78) are what the page posts. `ChatWire.PartContentType` is the Content-Type of the file's part, which the multipart encoding sets to `application/octet-stream` for a File with an empty `type`; its contract says that it is never empty. ChatPayloadAccepted and ImagePayloadAccepted state what the server makes of it.

## Left out

- MessageFormat.Rewrite: the global regex replacement is characterised by lemmas for the shapes the page meets. These are plain text, one delimited group, text before a group, laziness, line breaks inside a bold group, and bold inside code. There is no general theorem relating it to regular-expression semantics.
- MessageFormat.CloseAt: its contract states only bounds. CloseAtFirst and CloseAtStopsAtLineBreak say where the group closes.
- GeminiProxy.ExtractGeneratedText: the `catch` branch is not modelled. Probing plain data cannot throw, and the `catch` would return the same dump anyway. Throwing getters on SDK objects are not values of this model.
- Members inherited from prototypes, other than `length`, are not values of this model. So `messages.map` is modelled as "is an array", and the inherited persona keys of `personaInstructions` (such as `(Persona: ${personaInstructions['toString']})`) are not modelled.
- JavaScript numbers are reals: there is no NaN, -0 or floating-point rounding. Strings are sequences of Unicode scalar values, not UTF-16 code units.
- `JSON.stringify(resp, null, 2)` (the dump) and base64 encoding are unspecified functions in `GeminiProxy.Runtime`. Jsonify models only the structure of a JSON round trip, not how individual numbers or strings are encoded.
- The Gemini SDK client and `fetch` are oracles: what a call answers is not modelled, only which calls are made and in what order.
- Concurrent sends are not modelled. Sends that are awaited in parallel could interleave on `chatHistory`, but each send is taken as atomic.
- Express, cors, static serving, dotenv and `app.listen` (index.js:1-41, 56) are not modelled. Multer's form parsing is only the `ImageFormBody`/`ImageFormFile` pair. `res.json(400, "…")` is taken with Express 4 semantics: status 400 and a JSON string body. The first two `ensures` of GeminiProxy.Chat and the lemma ChatWire.ChatRefusalIsError depend on this; under Express 5, whose `res.json` takes one argument, these answers would be status 200 with the body `400`.
- The DOM is not modelled: `addMessage`, the typing indicator, clearing the chat window, the `image` and `file` cases of `renderContent` and the file-input handler's messages. Rendering a bot message that is not a string throws inside `addMessage`; that happens after the state changes the model states.
- Speech recognition, `FileReader` and `localStorage` are browser I/O. Only their effect on the state is kept: the saved persona is a parameter of LoadPreferences, and the chosen file is a parameter of SelectImage.
- The server's `console` logging and the page's `console.error` are not modelled.

## Findings

| source | as written | input that shows it | evidently intended | confidence | as-written member | corrected member |
|---|---|---|---|---|---|---|
| index.js:20-27 | `modelMapper[key] ?? GEMINI_MODEL` looks the key up through the object's prototype chain | `determineGeminiModel('toString')` gives the function `Object.prototype.toString`, not a model name; the same holds for the other `Object.prototype` keys | every key outside the table falls back to `'gemini-2.5-flash'` | not executed; the server itself only calls it with `'flash'` | GeminiProxy.PrototypeKeyEscapesDefault | GeminiProxy.DetermineGeminiModel |
