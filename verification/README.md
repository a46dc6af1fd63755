# MCP tool-result content pipeline, in Dafny

This project models the part of Open WebUI's MCP (Model Context Protocol) support that
turns the result of a tool call into text and files. The pieces it covers:

- **`content_parser.py`.** A raw result dictionary is parsed into typed blocks: text,
  image, audio and embedded resource. The module also provides accessors and an LLM
  rendering with no audience filter. It defines the `ProgressTracker` state machine.
- **`content_utils.py`.** Works on the MCP SDK's native content objects, or on plain
  dictionaries standing in for them. It covers classification, MIME-to-extension
  mapping, audience filtering, and rendering for the LLM and for the user.
- **`middleware_integration.py` and `integration.py`.** The two result processors. Each
  builds the `(text, files, embeds)` triple and emits a files event. Each also provides
  an audience-aware LLM formatter and a progress callback.
- **`client_v2.py` and `client_enhanced.py`.** The `call_tool` of both clients, with:
  - registration and cleanup of progress trackers;
  - injection of `_meta.progressToken`;
  - error raising;
  - `list_tool_specs`, `call_tool_simple` and the backward-compatible
    `MCPClient.call_tool`.

Everything outside the program is a parameter of the functions that use it:

- the MCP session, given as its answers;
- the upload helpers;
- base64 decoding and encoding;
- `json.dumps`;
- uuid generation, passed as the hex string or as a function from item index to hex;
- whether an event emitter exists.

Python exceptions are the `Failure` side of `Wrappers.Result`. Python dictionaries are
association lists in insertion order (`Json.Dict`). `dict.get` returns the value stored
under the first occurrence of the key, and `d[k] = v` overwrites that entry in place or
appends a new one. `str()` and `repr()` are written out concretely (`Json.PyStr`,
`Json.Repr`).

The modules follow the source files:

- **Helpers:** `Wrappers`, `Json`, `Text`, `Seqs`.
- **One module per source file:** `ContentParser`, `ContentUtils`,
  `MiddlewareIntegration`, `Integration`, `ClientV2`, `ClientEnhanced`.
- **`Progress`:** the `ProgressTracker`, which both `content_parser.py` and
  `content_utils.py` define identically.
- **`ToolFiles`:** the file entries and the triple assembly that both processors share.
- **`ClientCore`:** what both clients share, namely tool specs, the tracker map and the
  call outcome.

## Model

| member | source | states |
|---|---|---|
| ContentParser.GetAnnotation | backend/open_webui/utils/mcp/content_parser.py:28-42 | An annotation value is present exactly when the annotations are a dictionary holding the key, and it is the value stored under that key. The lookup raises exactly when truthy annotations are a boolean or a number (`in` cannot search them), or a list or string containing the key (which cannot be indexed by it), and what it raises is always a TypeError |
| ContentParser.GetAudience | backend/open_webui/utils/mcp/content_parser.py:38-42 | `get_audience` gives the "audience" value exactly when dictionary annotations hold it, and raises exactly when the lookup on malformed annotations raises |
| ContentParser.GetPriority | backend/open_webui/utils/mcp/content_parser.py:32-36 | `get_priority` gives the "priority" value exactly when dictionary annotations hold it, and raises exactly when the lookup on malformed annotations raises |
| ContentParser.ImageFileExtension | backend/open_webui/utils/mcp/content_parser.py:89-99 | The result is always one of png, jpg, gif, webp or svg: the mapped extension for a known image type, and "png" for any other |
| ContentParser.AudioFileExtension | backend/open_webui/utils/mcp/content_parser.py:127-137 | The result is always one of wav, mp3, ogg, webm or flac: the mapped extension for a known audio type, and "wav" for any other |
| ContentParser.ParseResource | backend/open_webui/utils/mcp/content_parser.py:143-156 | Parsing raises exactly when `resource` is not a dictionary. Resource type "text" gives a text resource and "blob" a blob resource; any other type sets no fields. A present string uri, text, blob or mimeType is carried into the result, and a missing one takes its default ("", "", "" and None, or application/octet-stream for a blob) |
| ContentParser.ParseContentBlock | backend/open_webui/utils/mcp/content_parser.py:234-249 | Raises exactly for a non-dictionary item, or for a resource item whose resource is not a dictionary. Otherwise the block's class is the one the `type` field names; annotations and `_meta` are kept; a present string text, data or mimeType is carried into the block, and a missing mimeType defaults to image/png or audio/wav; a resource block holds the parse of its `resource`; an unknown or missing type gives a text block holding `str(item)` |
| ContentParser.ParseToolResult | backend/open_webui/utils/mcp/content_parser.py:252-285 | Succeeds exactly when `content` is iterable, and a missing `content` gives no blocks. There is exactly one block per item, in item order: the parsed block or the parse-error text. The result carries the dictionary's structuredContent, isError and `_meta` values, which default to None, False and None when absent |
| ContentParser.TextsAppend | backend/open_webui/utils/mcp/content_parser.py:190-198 | The texts collected from two block lists laid end to end are the two collections laid end to end, so text order follows block order |
| ContentParser.TextsSkipNonTextual | backend/open_webui/utils/mcp/content_parser.py:190-198 | Image, audio, blob-resource and other-resource blocks contribute nothing to `get_text_content`, wherever they sit |
| ContentParser.BlocksOfKind | backend/open_webui/utils/mcp/content_parser.py:200-210 | `get_image_blocks`/`get_audio_blocks`/`get_resource_blocks` keep exactly the blocks of that class: every kept block is an input block of the class, and every such input block is kept |
| ContentParser.BlocksOfKindAppend | backend/open_webui/utils/mcp/content_parser.py:200-210 | Selecting from two block lists laid end to end selects from each, so the kept blocks stay in block order |
| ContentParser.BlocksOfKindCount | backend/open_webui/utils/mcp/content_parser.py:200-210 | A block of the class is kept exactly as many times as it occurs, and a block of another class never |
| ContentParser.HasMedia | backend/open_webui/utils/mcp/content_parser.py:212-214 | `has_media` holds exactly when some block is an image or an audio block |
| ContentParser.FormatForLlm | backend/open_webui/utils/mcp/content_parser.py:288-320 | Raises AttributeError exactly when some block is a resource of unknown type, whose `uri` was never set. Otherwise the LLM string starts with the newline-join of the per-block parts |
| ContentParser.FormatForLlmIgnoresPayloads | backend/open_webui/utils/mcp/content_parser.py:297-313 | Two results that differ only in image or audio `data`, blob payloads or raw resource dictionaries render to the same LLM string, or both raise |
| ContentParser.FormatForLlmStructured | backend/open_webui/utils/mcp/content_parser.py:315-318 | The "[Structured Data]" section is appended exactly when the structured content is truthy |
| Progress.NewTracker | backend/open_webui/utils/mcp/content_parser.py:328-333 | A new tracker starts at progress 0.0 of a total of 1.0 with an empty message and an empty history, is not complete, and reports 0 percent |
| Progress.Percentage | backend/open_webui/utils/mcp/content_parser.py:351-355 | The percentage is 0 when the total is at most 0. Otherwise percentage × total = progress × 100, and it lies in [0, 100] when 0 ≤ progress ≤ total |
| Progress.UpdateTracker | backend/open_webui/utils/mcp/content_parser.py:335-349 | `update` sets progress and message and changes the total only when one is given. It appends exactly one history entry, which is the returned update. Completion holds exactly when progress ≥ total |
| Progress.ApplyStepsHistory | backend/open_webui/utils/mcp/content_utils.py:283-297 | After any sequence of updates, the history grew by one entry per update, in call order, and the total is the last one given (the initial total if none was) |
| ContentUtils.ContentClass | backend/open_webui/utils/mcp/content_utils.py:30-55 | Each `is_*_content` predicate holds exactly when the item's single class is that one, so at most one holds. For a dictionary the class is decided by its `type` value |
| ContentUtils.GetTextFromContent | backend/open_webui/utils/mcp/content_utils.py:58-64 | A non-text item gives "", an SDK text item gives its text, a text dictionary gives its string "text" value, and one without "text" gives "" |
| ContentUtils.LastSegment | backend/open_webui/utils/mcp/content_utils.py:109 | `split("/")[-1]` is a slash-free suffix that is preceded by a slash when shorter than the input. It is the whole string when there is no slash, and strictly shorter when there is one |
| ContentUtils.FileExtensionFromMime | backend/open_webui/utils/mcp/content_utils.py:91-109 | A tabled type gives its extension. Otherwise the result is the slash-free text after the last "/", or "bin" when there is no "/" |
| ContentUtils.ExtensionTablesAgree | backend/open_webui/utils/mcp/content_utils.py:93-108 | For every image or audio type in the block classes' tables, `get_file_extension_from_mime` names the same extension |
| ContentUtils.AudienceFromAnnotations | backend/open_webui/utils/mcp/content_utils.py:112-121 | A dictionary item gives the "audience" value of its truthy dictionary annotations, with None meaning no audience. An item without annotations has none. Truthy annotations that are not a dictionary raise AttributeError (no `.get`). An SDK item gives its audience list exactly when it has annotations with an audience. For SDK items this is the corrected `.audience` read of Findings row 4, not the `.get` call as written |
| ContentUtils.AudienceFromAnnotationsAsWritten | backend/open_webui/utils/mcp/content_utils.py:112-116 | As written, every SDK item with annotations raises AttributeError, because its annotations object is asked for `.get("audience")`. On dictionary items and unannotated SDK items it agrees with the corrected lookup |
| ContentUtils.AnnotatedSdkItemRaises | backend/open_webui/utils/mcp/content_utils.py:112-116 | As written, a text item whose SDK annotations name only "user" raises AttributeError, where the corrected lookup shows it to the user and hides it from the assistant |
| ContentUtils.ShownTo | backend/open_webui/utils/mcp/content_utils.py:124-137 | An item is shown to a role when it has no audience, and otherwise exactly when the role is in the audience list. A boolean or numeric audience makes `in` raise TypeError, and a raising lookup propagates. It uses the corrected audience lookup of Findings row 4, so an annotated SDK item does not raise here |
| ContentUtils.NativeVisibility | backend/open_webui/utils/mcp/content_utils.py:124-137 | An SDK item never raises, and is shown to a role exactly when it has no annotations, no audience, or an audience listing that role |
| ContentUtils.Select | backend/open_webui/utils/mcp/content_utils.py:183-193 | The list comprehensions keep exactly the items satisfying the predicate |
| ContentUtils.SelectAppend | backend/open_webui/utils/mcp/content_utils.py:183-193 | Selecting from two lists laid end to end selects from each, so the kept items stay in list order |
| ContentUtils.SelectCount | backend/open_webui/utils/mcp/content_utils.py:183-193 | An item satisfying the predicate is kept exactly as many times as it occurs, and any other item never |
| ContentUtils.HasMedia | backend/open_webui/utils/mcp/content_utils.py:195-197 | `has_media` holds exactly when some item is an image or an audio item |
| ContentUtils.MediaItemAddsNoText | backend/open_webui/utils/mcp/content_utils.py:170-197 | An image or audio item inserted anywhere leaves `get_text_content` unchanged and makes `has_media` hold |
| ContentUtils.FormatForLlm | backend/open_webui/utils/mcp/content_utils.py:199-242 | Raises exactly when some item's audience check raises, with the first such exception. Otherwise the LLM string starts with the join of the visible parts, and equals it exactly when structured data is not both requested and truthy. It uses the corrected audience lookup of Findings row 4 |
| ContentUtils.FormatForLlmOmitsHidden | backend/open_webui/utils/mcp/content_utils.py:210-213 | An item hidden from the assistant can be inserted anywhere without changing the LLM result |
| ContentUtils.FormatForLlmKeepsVisibleText | backend/open_webui/utils/mcp/content_utils.py:215-216 | A visible SDK text item contributes exactly its text, at its position |
| ContentUtils.LlmPieceIgnoresPayload | backend/open_webui/utils/mcp/content_utils.py:217-228 | What an item adds to the LLM string, or the exception it raises, is unchanged when its image, audio or blob payload is blanked |
| ContentUtils.FormatForUserDrops | backend/open_webui/utils/mcp/content_utils.py:244-264 | Visible resource items and items hidden from the user never affect the user result |
| ContentUtils.FormatForUser | backend/open_webui/utils/mcp/content_utils.py:244-264 | Raises exactly when some item's audience check raises; otherwise the user string is the newline-join of the visible parts. It uses the corrected audience lookup of Findings row 4 |
| ContentUtils.UserPieceOfMedia | backend/open_webui/utils/mcp/content_utils.py:258-261 | A user-visible image shows as "[Image]" and a user-visible audio item as "[Audio]", with neither payload nor mime type |
| ContentUtils.CreateTextResult | backend/open_webui/utils/mcp/content_utils.py:314-319 | The created result's text content is the given text, with no media and the given error flag |
| ContentUtils.CreateImageResult | backend/open_webui/utils/mcp/content_utils.py:322-332 | The created result has media and ends with the image. Its text is the description when that is non-empty, and "" otherwise |
| ToolFiles.Assemble | backend/open_webui/utils/mcp/middleware_integration.py:100-126 | The files are the produced entries in order, never more than the items. Embeds are empty. The files event is emitted exactly when files exist and an emitter is given. The text is the newline-join of the parts, followed, exactly when the structured content is truthy, by a blank line, `[Structured Data]`, a newline and the JSON dump of the structured content |
| MiddlewareIntegration.ProcessImageContent | backend/open_webui/utils/mcp/middleware_integration.py:129-175 | No entry exactly when the payload decodes to nothing or the upload raises or gives an empty URL. Otherwise there is an image entry named mcp_image_<8 hex>.<block extension>, with the uploaded URL, mime type and annotations |
| MiddlewareIntegration.ProcessAudioContent | backend/open_webui/utils/mcp/middleware_integration.py:178-219 | No entry exactly when the payload decodes to nothing. Otherwise there is an audio entry named mcp_audio_<8 hex>.<block extension> that keeps the base64 data |
| MiddlewareIntegration.ProcessMcpToolResult | backend/open_webui/utils/mcp/middleware_integration.py:26-126 | Raises AttributeError exactly when some block is a resource of unknown type. Otherwise every output file was produced by an image or audio step, and every produced entry is output. Embeds are empty, and the files event is emitted exactly with files and an emitter. The text is the newline-join of the parts, followed, exactly when the structured content is truthy, by a blank line, `[Structured Data]`, a newline and the JSON dump |
| MiddlewareIntegration.MediaFilesKept | backend/open_webui/utils/mcp/middleware_integration.py:58-86 | Every entry an image or audio step produced is among the output files |
| MiddlewareIntegration.FilesComeFromMedia | backend/open_webui/utils/mcp/middleware_integration.py:53-98 | Every output file was produced by the step of an image or audio block |
| MiddlewareIntegration.StepErrorContinues | backend/open_webui/utils/mcp/middleware_integration.py:58-86 | When an image or audio block's step raises, the parts are those of the earlier blocks, then one "[Image processing error: ...]" or "[Audio processing error: ...]", then those of the later blocks, and the block adds no file |
| MiddlewareIntegration.ImageEffect | backend/open_webui/utils/mcp/middleware_integration.py:58-68 | An image adds a file and "[Generated Image: name]" exactly when its step produced an entry, and nothing when it produced none |
| MiddlewareIntegration.AudioEffect | backend/open_webui/utils/mcp/middleware_integration.py:73-83 | An audio block adds a file and "[Generated Audio: name]" exactly when its step produced an entry, and nothing when it produced none |
| MiddlewareIntegration.RealStepsNeverFail | backend/open_webui/utils/mcp/middleware_integration.py:141-175 | With the real processing functions, a media block adds a text part exactly when it adds a file, so no error placeholder can appear |
| MiddlewareIntegration.FormatMcpToolCallForLlm | backend/open_webui/utils/mcp/middleware_integration.py:255-301 | Raises exactly when some block's iteration raises, with the first such exception. Otherwise the string is the newline-join of the kept parts, followed, exactly when the structured content is truthy, by a blank line, `[Structured Output]`, a newline and the JSON dump |
| MiddlewareIntegration.SkipForAssistant | backend/open_webui/utils/mcp/middleware_integration.py:274-278 | A block is skipped exactly when its audience is truthy and lacks "assistant"; a raising audience lookup propagates, and a truthy boolean or numeric audience raises TypeError |
| MiddlewareIntegration.AssistantPart | backend/open_webui/utils/mcp/middleware_integration.py:273-290 | A skipped block adds nothing. A kept text block adds its text, a kept image `[Image generated: <mime>]`, a kept audio `[Audio generated: <mime>]`, a kept text resource `[Resource: <uri>]` followed by a newline and its text, and a kept blob resource `[Resource: <uri>]`. A kept resource of unknown type raises AttributeError. The iteration raises exactly when the skip check does or such a resource is kept |
| MiddlewareIntegration.AssistantPartSkipRule | backend/open_webui/utils/mcp/middleware_integration.py:273-278 | A block adds nothing exactly when it is skipped. A renderable block without an audience, or with an empty one, is kept. A truthy boolean or numeric audience raises TypeError |
| MiddlewareIntegration.FormatMcpToolCallSkips | backend/open_webui/utils/mcp/middleware_integration.py:273-292 | A skipped block can be inserted anywhere without changing the rendering |
| MiddlewareIntegration.FormatMcpToolCallIgnoresPayloads | backend/open_webui/utils/mcp/middleware_integration.py:280-290 | The rendering, or the exception it raises, is blind to image and audio data, blob payloads and raw resource dictionaries |
| MiddlewareIntegration.OnProgress | backend/open_webui/utils/mcp/middleware_integration.py:236-252 | An event is emitted exactly when an emitter exists, and it is the progress payload of the tool and the dictionary, defaulting to progress 0, total 1, percentage 0 and message "" |
| Progress.ProgressPayload | backend/open_webui/utils/mcp/middleware_integration.py:239-248 | The event names the tool. Each field present in the progress dictionary is passed on as stored, and each missing one takes its default: 0, 1, 0 and "" |
| Integration.DecodeMedia | backend/open_webui/utils/mcp/content_utils.py:67-88 | An SDK item decodes its data. A dictionary decodes its string "data" (default ""), and a non-string "data" decodes to nothing |
| Integration.ProcessMedia | backend/open_webui/utils/mcp/integration.py:142-173 | No entry exactly when the payload decodes to nothing, the upload raises or gives an empty URL, or the mime type is not a string. Otherwise the entry is named mcp_<tool>_<8 hex>.<extension of its mime type>, its mime type is the item's (or the default), and its location is the URL the upload answered with |
| Integration.ProcessImage | backend/open_webui/utils/mcp/integration.py:134-173 | An image entry named by the extension of its mime type. That is the SDK item's mime type, and image/png for a dictionary without mimeType |
| Integration.ProcessAudio | backend/open_webui/utils/mcp/integration.py:176-215 | An audio entry named by the extension of its mime type. That is the SDK item's mime type, and audio/wav for a dictionary without mimeType |
| Integration.DefaultImageName | backend/open_webui/utils/mcp/integration.py:144-166 | An image dictionary without mimeType is stored under a name ending in ".png" |
| Integration.DefaultAudioName | backend/open_webui/utils/mcp/integration.py:186-208 | An audio dictionary without mimeType is stored under a name ending in ".wav" |
| Integration.ProcessResource | backend/open_webui/utils/mcp/integration.py:218-237 | There is a string exactly for SDK resource objects: "[Resource: uri]" then a newline and the text for a text resource, and "[Resource: uri (mime)]" for a blob, with "None" for an unset mime type |
| Integration.ProcessResourceMatchesLlm | backend/open_webui/utils/mcp/integration.py:218-237 | A text resource is shown exactly as `format_for_llm` shows it; a blob resource differs only by naming its mime type |
| Integration.ProcessMcpResult | backend/open_webui/utils/mcp/integration.py:39-131 | Every output file was produced by an image or audio step, and every produced entry is output. Embeds are empty, and the files event is emitted exactly with files and an emitter. The text is the newline-join of the parts, followed, exactly when the structured content is truthy, by a blank line, `[Structured Data]`, a newline and the JSON dump |
| Integration.ItemFilesComeFromMedia | backend/open_webui/utils/mcp/integration.py:66-103 | Every output file was produced by the step of an image or audio item |
| Integration.ItemMediaFilesKept | backend/open_webui/utils/mcp/integration.py:72-93 | Every entry an image or audio step produced is among the output files |
| Integration.ItemErrorContinues | backend/open_webui/utils/mcp/integration.py:66-103 | When an image or audio item's processing raises, it adds one "[Error processing content: ...]" and no file, and the parts of the items before and after it are kept |
| Integration.RealItemEffects | backend/open_webui/utils/mcp/integration.py:68-99 | With the real steps, a media item adds a placeholder exactly when it adds a file. A text item adds its text, and a dictionary resource adds nothing |
| Integration.CreateProgressCallback | backend/open_webui/utils/mcp/integration.py:240-272 | There is no callback exactly when there is no emitter. Otherwise each call yields the progress payload for the tool |
| Integration.ProgressCallbackEvents | backend/open_webui/utils/mcp/integration.py:250-266 | The callback's events name the tool, and an empty progress dictionary gives progress 0, total 1, percentage 0 and message "" |
| Integration.FormatForLlm | backend/open_webui/utils/mcp/integration.py:275-282 | Raises exactly when the result's own LLM rendering does. Otherwise it is that rendering, with the "[Structured Data]" section added exactly when the structured content is truthy |
| ClientCore.ToolSpec | backend/open_webui/utils/mcp/client_v2.py:133-143 | A spec carries the name, the description and "parameters" = inputSchema. It has an "output_schema" key exactly when the output schema is truthy, and no other keys |
| ClientCore.ListToolSpecs | backend/open_webui/utils/mcp/client_v2.py:119-145 | Raises RuntimeError without a session, and passes on a listing failure. Otherwise there is one spec per tool, in order: that tool's spec, carrying its name and parameters, with output_schema exactly for truthy schemas. `client_enhanced.py` builds the specs the same way |
| ClientCore.Registered | backend/open_webui/utils/mcp/client_v2.py:168-174 | With a callback the map gains a new tracker under the token. Every other entry is unchanged, and without a callback the map is unchanged |
| ClientCore.CleanedUp | backend/open_webui/utils/mcp/client_v2.py:205-208 | With a callback the token leaves the map. Every other entry is kept, and no entry is added |
| ClientCore.RegisterThenCleanUp | backend/open_webui/utils/mcp/client_v2.py:168-174 | Registering a fresh token and then removing it restores the tracker map |
| ClientV2.BuildArgs | backend/open_webui/utils/mcp/client_v2.py:176-184 | Without a callback the sent arguments are the caller's. With one, the sent `_meta` is the old one (or {}) with the token set, and the argument keys are unchanged apart from `_meta`. A non-dictionary `_meta` raises TypeError, and an existing `_meta` is shared with the caller's arguments |
| ClientV2.BuildArgsKeepsOthers | backend/open_webui/utils/mcp/client_v2.py:178-184 | Every argument other than `_meta` is sent with the caller's value, and the caller's value of it is unchanged |
| ClientV2.Interpret | backend/open_webui/utils/mcp/client_v2.py:186-203 | Success exactly for a non-None result that is not an error. None raises "No result returned from MCP tool call.", and an error result raises "Tool error: " followed by its text |
| ClientV2.CallTool | backend/open_webui/utils/mcp/client_v2.py:147-208 | Raises RuntimeError without a session. A tracker is registered exactly when a callback is given. Once connected, the session is reached exactly when building the arguments succeeds, and it is sent the built arguments (the token injected into `_meta` when there is a callback). The caller's arguments afterwards are the ones building leaves, with a shared `_meta` mutated. When the session is reached, the result mirrors its answer and the token is removed afterwards |
| ClientV2.BuildArgsFixed | backend/open_webui/utils/mcp/client_v2.py:176-184 | The corrected copy: it sends the same arguments and fails in the same cases, but the caller's arguments stay as they were |
| ClientV2.CallToolFixed | backend/open_webui/utils/mcp/client_v2.py:147-208 | The corrected call: cleanup applies on every exit once connected, including a failure while building the arguments. It sends the same built arguments as the written call, and the caller's arguments are untouched |
| ClientV2.CallToolFixedRestoresTrackers | backend/open_webui/utils/mcp/client_v2.py:205-208 | With a fresh token, every corrected call leaves the tracker map as it found it |
| ClientV2.CallToolFixedAgrees | backend/open_webui/utils/mcp/client_v2.py:147-208 | The corrected call sends the same arguments, gets the same result and registers the same trackers as the written one |
| ClientV2.TrackerLeaksOnBadMeta | backend/open_webui/utils/mcp/client_v2.py:174-186 | As written, `{"_meta": None}` with a callback raises TypeError and leaves the call's tracker in the map |
| ClientV2.CallerMetaMutated | backend/open_webui/utils/mcp/client_v2.py:178-184 | As written, `{"_meta": {}}` with a callback leaves the caller's own arguments holding the progress token |
| ClientV2.CompatCallTool | backend/open_webui/utils/mcp/client_v2.py:286-298 | No tracker is ever registered and the state is unchanged. The sent arguments are the caller's, and the result is the dump of the content list, item by item. A failure is the exception the inner call raised |
| ClientEnhanced.WrapCallback | backend/open_webui/utils/mcp/client_enhanced.py:152-156 | The wrapped callback never raises. It logs exactly when the user's callback raises, and then logs that exception |
| ClientEnhanced.BuildArgs | backend/open_webui/utils/mcp/client_enhanced.py:161-165 | Without a callback the arguments are unchanged. With one, `_meta` is replaced wholesale by {"progressToken": token} |
| ClientEnhanced.BuildArgsKeepsOthers | backend/open_webui/utils/mcp/client_enhanced.py:162-165 | Every argument other than `_meta` reaches the session unchanged |
| ClientEnhanced.Interpret | backend/open_webui/utils/mcp/client_enhanced.py:167-185 | None raises "No result returned from MCP tool call.". The dump is parsed and parse failures propagate. A truthy isError raises "Tool error: " followed by the text, and otherwise the parsed result is returned |
| ClientEnhanced.CallTool | backend/open_webui/utils/mcp/client_enhanced.py:121-190 | Raises RuntimeError without a session. A tracker is registered exactly when a callback is given and is removed on every exit. The caller's arguments are never changed, and a returned result never has a truthy isError |
| ClientEnhanced.CallToolRestoresTrackers | backend/open_webui/utils/mcp/client_enhanced.py:187-190 | With a fresh token, every call leaves the tracker map as it found it |
| ClientEnhanced.MediaList | backend/open_webui/utils/mcp/client_enhanced.py:211-223 | An "images"/"audio" list is present exactly when a block of that kind exists. It holds one {mime_type, data} per such block, in order |
| ClientEnhanced.CallToolSimple | backend/open_webui/utils/mcp/client_enhanced.py:192-225 | Succeeds exactly when the dispatched `self.call_tool` does, and then returns the simplified result. A failure is that call's exception, and the sent arguments and final state are the dispatched call's |
| ClientEnhanced.Simplify | backend/open_webui/utils/mcp/client_enhanced.py:203-225 | The simple dictionary carries the text content, the structured content, the error flag and the media lists |
| ClientEnhanced.CompatCallToolRecurses | backend/open_webui/utils/mcp/client_enhanced.py:192-201 | As written, the backward-compatible `call_tool` re-enters itself through `call_tool_simple` for any recursion budget. It always ends in RecursionError, sends nothing, and leaves the state unchanged |
| ClientEnhanced.CompatCallToolFixed | backend/open_webui/utils/mcp/client_enhanced.py:276-290 | The corrected backward-compatible call never registers a tracker. It succeeds exactly when the enhanced call does, and then returns the simplified result of that call |
| ClientEnhanced.CompatCallToolFixedAnswers | backend/open_webui/utils/mcp/client_enhanced.py:192-225 | A connected session answering with a parseable, non-error dump gives its simplified result |

## Left out

- `connect`, `disconnect`, `__aenter__`/`__aexit__`, `list_resources`, `read_resource` and `call_tool_raw`: these are transport and SDK plumbing. The session appears only through its answers.
- The progress listeners (`_start_progress_listener`, `_handle_notifications`, `_listen_for_progress_notifications`): their bodies are `pass` or comments.
- The callback stored on a tracker (`tracker.callback`): nothing in the modelled code ever reads it back. The tracker map holds the trackers only.
- Asynchrony, logging, and the try/except around the emitter and `json.dumps` calls. Every modelled JSON value is serialisable. Event emission is recorded as the event that would be sent.
- The `to_dict` and `__str__` methods of the blocks: no modelled operation uses them.
- `backend/open_webui/utils/mcp/client.py`: an alias subclass with no logic of its own.
- Floating-point numbers: JSON numbers are integers, and tracker progress and percentages are reals, without IEEE rounding.
- Json.Repr: does not escape quotes or backslashes inside strings, and prints integers only.
- ContentParser.ParseContentBlock: a non-string value in `text`, `mimeType`, `uri`, an image or audio item's `data`, or a resource's `blob` is carried as its `str()`. The source keeps the raw value. For `text`, `"\n".join` would then raise TypeError; a raw image or audio `data` is returned unchanged by `call_tool_simple` in its media lists (`"data": img.data`), where the model returns the string form.
- ContentParser.ParseResource: a non-string `blob` is carried as its `str()`, where the source keeps the raw value.
- ContentUtils.GetTextFromContent: a non-string "text" value of a text dictionary is given as its `str()`. The source returns the raw value, and the `"\n".join` in `process_mcp_result` (integration.py:119) and in the two formatters would then raise TypeError.
- Exception messages: the TypeError and AttributeError texts of malformed annotations and audiences follow CPython's wording only approximately. Which exception class is raised, and when, is modelled exactly.
- MiddlewareIntegration.ProcessMcpToolResult: the image and audio steps are parameters, so the "[... processing error: ...]" branches can be stated. `RealStepsNeverFail` shows that the real steps never take them.
- Integration.ProcessMcpResult: the steps are parameters for the same reason. `RealItemEffects` shows that the real steps never raise.
- Base64 decoding and encoding, the upload helpers (`upload_image`, `get_image_url_from_base64`, `get_file_url_from_base64`), `uuid4` and `json.dumps` are oracle parameters. An invalid base64 payload is an oracle answer of no bytes.
- ClientV2.ItemAssignmentError: reproduces CPython's message text for the non-dictionary cases.

## Findings

| source | as written | input that shows it | evidently intended | confidence | as-written member | corrected member |
|---|---|---|---|---|---|---|
| backend/open_webui/utils/mcp/client_v2.py:174-186 | The tracker is registered at line 174, but `_meta` is written at line 184, before the `try` that starts at line 186. A TypeError there skips the `finally` cleanup | `function_args = {"_meta": None}` with a progress callback: TypeError, and the token stays in `_progress_trackers` | The token is removed on every exit, as the `finally` clause intends | not executed | ClientV2.TrackerLeaksOnBadMeta | ClientV2.CallToolFixedRestoresTrackers |
| backend/open_webui/utils/mcp/client_v2.py:178-184 | `function_args.copy()` is shallow, so line 184 writes `progressToken` into the caller's own `_meta` dictionary | `function_args = {"_meta": {}}` with a progress callback: afterwards the caller's dictionary holds `{"_meta": {"progressToken": token}}` | The copy leaves the caller's arguments untouched | not executed | ClientV2.CallerMetaMutated | ClientV2.CallToolFixed |
| backend/open_webui/utils/mcp/client_enhanced.py:201,282-290 | `MCPClient.call_tool` calls `call_tool_simple`, whose `self.call_tool` resolves back to `MCPClient.call_tool`, so the call never ends | Any call on an `MCPClient` from this file: RecursionError, and the session is never reached | `call_tool_simple` runs the enhanced `call_tool` | not executed | ClientEnhanced.CompatCallToolRecurses | ClientEnhanced.CompatCallToolFixedAnswers |
| backend/open_webui/utils/mcp/content_utils.py:112-116 | For an SDK content object with annotations, `get_audience_from_annotations` calls `content.annotations.get("audience")`. The SDK's `Annotations` is a pydantic model with an `audience` attribute and no `get` method | `TextContent(type="text", text="x", annotations=Annotations(audience=["user"]))`: AttributeError from `should_show_to_user`, `should_show_to_assistant`, `format_for_llm` and `format_for_user` | The audience is read as `content.annotations.audience` | not executed; the SDK is not part of this model, and the claim rests on `Annotations` being a pydantic model without `get` | ContentUtils.AnnotatedSdkItemRaises | ContentUtils.NativeVisibility |
