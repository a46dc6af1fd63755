/**
 * `integration.py`: the result processor over the SDK content objects of
 * `content_utils.py`. Base64 decoding and encoding, the two upload helpers, uuid
 * generation and event emission are parameters.
 */
module Integration {
  import opened Wrappers
  import opened Json
  import Text
  import Seqs
  import ContentParser
  import opened ContentUtils
  import opened ToolFiles
  import Progress

  // ---------------------------------------------------------------------------
  // Media processing
  // ---------------------------------------------------------------------------

  /**
   * `decode_image_data` / `decode_audio_data`: the decoded payload of an SDK object, or
   * of a dictionary's `data` entry (default ""). Invalid base64 decodes to nothing
   * (the oracle returns empty); a non-string `data` makes `b64decode` raise, which is
   * caught and also gives nothing.
   */
  function DecodeMedia(c: Content, decode: string -> Bytes): (r: Bytes)
    requires c.ImageContent? || c.AudioContent? || c.DictContent?
    ensures !c.DictContent? ==> r == decode(c.data)
    ensures c.DictContent? && !Get(c.fields, "data", Str("")).Str? ==> r == []
    ensures c.DictContent? && !HasKey(c.fields, "data") ==> r == decode("")
    ensures c.DictContent? && Get(c.fields, "data", Str("")).Str? ==> r == decode(Get(c.fields, "data", Str("")).s)
  {
    if c.DictContent? then
      var data := Get(c.fields, "data", Str(""));
      if data.Str? then decode(data.s) else []
    else decode(c.data)
  }

  /** The mime type `_process_image` / `_process_audio` read: the SDK field, or the dictionary's with a default. */
  function MediaMimeJson(c: Content, default: string): (r: Json)
    requires c.ImageContent? || c.AudioContent? || c.DictContent?
    ensures !c.DictContent? ==> r == Str(c.mimeType)
    ensures c.DictContent? && !HasKey(c.fields, "mimeType") ==> r == Str(default)
  {
    if c.DictContent? then Get(c.fields, "mimeType", Str(default)) else Str(c.mimeType)
  }

  /** The uploaded file's name, `mcp_<tool>_<first 8 hex digits of a uuid>.<extension>`. */
  function FileName(tool: string, hex: string, ext: string): (name: string)
    ensures Text.IsPrefix(name, "mcp_" + tool + "_")
    ensures Text.IsSuffix(name, "." + ext)
  {
    Text.SuffixOfAppend("mcp_" + tool + "_" + Text.Take(hex, 8), "." + ext);
    "mcp_" + tool + "_" + Text.Take(hex, 8) + "." + ext
  }

  /**
   * The common body of `_process_image` and `_process_audio`: decode, wrap in a data
   * URL, upload, and name the file `mcp_<tool>_<8 hex>.<extension of the mime type>`.
   * No entry when the payload decodes to nothing, the upload raises or gives an empty
   * URL, or the mime type is not a string (the extension lookup then raises, and the
   * exception is caught).
   */
  function ProcessMedia(kind: string, c: Content, default: string, tool: string, decode: string -> Bytes,
                        encode: Bytes -> string, upload: string -> UploadReply, hex: string): (r: Option<FileEntry>)
    requires c.ImageContent? || c.AudioContent? || c.DictContent?
    ensures var bytes := DecodeMedia(c, decode);
            var mime := MediaMimeJson(c, default);
            var reply := upload("data:" + PyStr(mime) + ";base64," + encode(bytes));
            && (r.None? <==> |bytes| == 0 || reply.UploadRaised? || reply.url == "" || !mime.Str?)
            && (r.Some? ==> r.value.location == Url(reply.url))
    ensures r.Some? ==>
              && r.value.kind == kind
              && r.value.name == FileName(tool, hex, FileExtensionFromMime(r.value.mimeType))
              && Str(r.value.mimeType) == MediaMimeJson(c, default)
              && r.value.location.Url?
              && r.value.annotations.None?
    ensures r.Some? && !c.DictContent? ==> r.value.mimeType == c.mimeType
    ensures r.Some? && c.DictContent? && !HasKey(c.fields, "mimeType") ==> r.value.mimeType == default
  {
    var bytes := DecodeMedia(c, decode);
    var mime := MediaMimeJson(c, default);
    if |bytes| == 0 then None
    else
      match upload("data:" + PyStr(mime) + ";base64," + encode(bytes))
      case UploadRaised(_) => None
      case Uploaded(url) =>
        if url == "" || !mime.Str? then None
        else Some(FileEntry(kind, FileName(tool, hex, FileExtensionFromMime(mime.s)), Url(url), mime.s, None))
  }

  /** `_process_image`: an image entry, with "image/png" as the dictionary default mime type. */
  function ProcessImage(c: Content, tool: string, decode: string -> Bytes, encode: Bytes -> string,
                        upload: string -> UploadReply, hex: string): (r: Option<FileEntry>)
    requires IsImageContent(c)
    ensures r.Some? ==> r.value.kind == "image"
    ensures r.Some? ==> r.value.name == FileName(tool, hex, FileExtensionFromMime(r.value.mimeType))
    ensures c.ImageContent? && r.Some? ==> r.value.mimeType == c.mimeType
    ensures c.DictContent? && !HasKey(c.fields, "mimeType") && r.Some? ==> r.value.mimeType == "image/png"
  {
    ProcessMedia("image", c, "image/png", tool, decode, encode, upload, hex)
  }

  /** `_process_audio`: an audio entry, with "audio/wav" as the dictionary default mime type. */
  function ProcessAudio(c: Content, tool: string, decode: string -> Bytes, encode: Bytes -> string,
                        upload: string -> UploadReply, hex: string): (r: Option<FileEntry>)
    requires IsAudioContent(c)
    ensures r.Some? ==> r.value.kind == "audio"
    ensures r.Some? ==> r.value.name == FileName(tool, hex, FileExtensionFromMime(r.value.mimeType))
    ensures c.AudioContent? && r.Some? ==> r.value.mimeType == c.mimeType
    ensures c.DictContent? && !HasKey(c.fields, "mimeType") && r.Some? ==> r.value.mimeType == "audio/wav"
  {
    ProcessMedia("audio", c, "audio/wav", tool, decode, encode, upload, hex)
  }

  /** An image dictionary without `mimeType` is stored as a .png file. */
  lemma DefaultImageName(c: Content, tool: string, decode: string -> Bytes, encode: Bytes -> string,
                        upload: string -> UploadReply, hex: string)
    requires c.DictContent? && !HasKey(c.fields, "mimeType") && IsImageContent(c)
    ensures var r := ProcessImage(c, tool, decode, encode, upload, hex);
            r.Some? ==> Text.IsSuffix(r.value.name, ".png")
  {
    var r := ProcessImage(c, tool, decode, encode, upload, hex);
    if r.Some? {
      assert r.value.mimeType == "image/png";
      assert FileExtensionFromMime("image/png") == "png" by { assert "image/png" in MimeExtensions; }
      assert r.value.name == FileName(tool, hex, "png");
      assert "." + "png" == ".png";
    }
  }

  /** An audio dictionary without `mimeType` is stored as a .wav file. */
  lemma DefaultAudioName(c: Content, tool: string, decode: string -> Bytes, encode: Bytes -> string,
                        upload: string -> UploadReply, hex: string)
    requires c.DictContent? && !HasKey(c.fields, "mimeType") && IsAudioContent(c)
    ensures var r := ProcessAudio(c, tool, decode, encode, upload, hex);
            r.Some? ==> Text.IsSuffix(r.value.name, ".wav")
  {
    var r := ProcessAudio(c, tool, decode, encode, upload, hex);
    if r.Some? {
      assert r.value.mimeType == "audio/wav";
      assert FileExtensionFromMime("audio/wav") == "wav" by { assert "audio/wav" in MimeExtensions; }
      assert r.value.name == FileName(tool, hex, "wav");
      assert "." + "wav" == ".wav";
    }
  }

  /**
   * `_process_resource`: only SDK resource objects have a `resource` attribute; a text
   * resource shows its URI and text, a blob resource its URI and mime type ("None"
   * when unset).
   */
  function ProcessResource(c: Content): (r: Option<string>)
    ensures r.Some? <==> c.EmbeddedResource?
    ensures c.EmbeddedResource? ==> Text.IsPrefix(r.value, "[Resource: " + c.resource.uri)
    ensures c.EmbeddedResource? && c.resource.TextResourceContents? ==>
              Text.IsSuffix(r.value, "]\n" + c.resource.text)
    ensures c.EmbeddedResource? && c.resource.TextResourceContents? ==>
              r == Some("[Resource: " + c.resource.uri + "]\n" + c.resource.text)
    ensures c.EmbeddedResource? && c.resource.BlobResourceContents? ==>
              r == Some("[Resource: " + c.resource.uri + " (" +
                        (if c.resource.mimeType.Some? then c.resource.mimeType.value else "None") + ")]")
  {
    if !c.EmbeddedResource? then None
    else
      match c.resource
      case TextResourceContents(uri, _, text) =>
        assert ("[Resource: " + uri) + ("]\n" + text) == "[Resource: " + uri + "]\n" + text;
        Some("[Resource: " + uri + "]\n" + text)
      case BlobResourceContents(uri, mime, _) =>
        Some("[Resource: " + uri + " (" + (if mime.Some? then mime.value else "None") + ")]")
  }

  /**
   * A text resource is shown the same way here as by `format_for_llm`; a blob resource
   * differs only in naming its mime type.
   */
  lemma ProcessResourceMatchesLlm(c: Content)
    requires c.EmbeddedResource?
    ensures c.resource.TextResourceContents? ==> ProcessResource(c) == LlmShown(c)
    ensures c.resource.BlobResourceContents? ==>
              && LlmShown(c) == Some("[Resource: " + c.resource.uri + "]")
              && Text.IsPrefix(ProcessResource(c).value, "[Resource: " + c.resource.uri)
  {
    var _ := ContentClass(c);
  }

  /** The image step of `process_mcp_result` on item `i`, drawing the i-th uuid. */
  function ImageOutcome(tool: string, decode: string -> Bytes, encode: Bytes -> string,
                        upload: string -> UploadReply, uuids: nat -> string, i: nat, c: Content): (r: StepOutcome)
    ensures !r.StepRaised?
  {
    if IsImageContent(c) then AsOutcome(ProcessImage(c, tool, decode, encode, upload, uuids(i))) else NothingProduced
  }

  /** The audio step of `process_mcp_result` on item `i`. */
  function AudioOutcome(tool: string, decode: string -> Bytes, encode: Bytes -> string,
                        upload: string -> UploadReply, uuids: nat -> string, i: nat, c: Content): (r: StepOutcome)
    ensures !r.StepRaised?
  {
    if IsAudioContent(c) then AsOutcome(ProcessAudio(c, tool, decode, encode, upload, uuids(i))) else NothingProduced
  }

  /** The real image step; `_process_image` catches every exception, so it never raises. */
  function ImageStep(tool: string, decode: string -> Bytes, encode: Bytes -> string,
                     upload: string -> UploadReply, uuids: nat -> string): (step: Step<Content>)
    ensures forall i, c :: step(i, c) == ImageOutcome(tool, decode, encode, upload, uuids, i, c)
  {
    (i: nat, c: Content) => ImageOutcome(tool, decode, encode, upload, uuids, i, c)
  }

  /** The real audio step; it never raises either. */
  function AudioStep(tool: string, decode: string -> Bytes, encode: Bytes -> string,
                     upload: string -> UploadReply, uuids: nat -> string): (step: Step<Content>)
    ensures forall i, c :: step(i, c) == AudioOutcome(tool, decode, encode, upload, uuids, i, c)
  {
    (i: nat, c: Content) => AudioOutcome(tool, decode, encode, upload, uuids, i, c)
  }

  // ---------------------------------------------------------------------------
  // process_mcp_result
  // ---------------------------------------------------------------------------

  /**
   * What the guarded loop body does for item `i`. An exception from a step becomes an
   * "[Error processing content: ...]" part and no file; items of no known class add
   * nothing.
   */
  function ItemEffect(i: nat, c: Content, imageStep: Step<Content>, audioStep: Step<Content>): Effect {
    if IsTextContent(c) then (Some(GetTextFromContent(c)), None)
    else if IsImageContent(c) then
      (match imageStep(i, c)
       case Produced(f) => (Some("[Image: " + f.name + "]"), Some(f))
       case NothingProduced => (None, None)
       case StepRaised(m) => (Some("[Error processing content: " + m + "]"), None))
    else if IsAudioContent(c) then
      (match audioStep(i, c)
       case Produced(f) => (Some("[Audio: " + f.name + "]"), Some(f))
       case NothingProduced => (None, None)
       case StepRaised(m) => (Some("[Error processing content: " + m + "]"), None))
    else if IsResourceContent(c) then (ProcessResource(c), None)
    else (None, None)
  }

  function ItemEffects(cs: seq<Content>, imageStep: Step<Content>, audioStep: Step<Content>): (r: seq<Effect>)
    ensures |r| == |cs| && forall i :: 0 <= i < |cs| ==> r[i] == ItemEffect(i, cs[i], imageStep, audioStep)
  {
    seq(|cs|, i requires 0 <= i < |cs| => ItemEffect(i, cs[i], imageStep, audioStep))
  }

  /** `process_mcp_result`. */
  function ProcessMcpResult(tool: string, r: CallToolResult, hasEmitter: bool,
                            imageStep: Step<Content>, audioStep: Step<Content>, dumps: Json -> string)
    : (out: ToolOutput)
    ensures out.embeds == []
    ensures out.filesEvent.Some? <==> |out.files| > 0 && hasEmitter
    ensures out.filesEvent.Some? ==> out.filesEvent.value == FilesEvent(out.files, tool)
    ensures |out.files| <= |r.content|
    ensures forall f :: f in out.files ==>
              exists i :: 0 <= i < |r.content| &&
                ((IsImageContent(r.content[i]) && imageStep(i, r.content[i]) == Produced(f)) ||
                 (IsAudioContent(r.content[i]) && audioStep(i, r.content[i]) == Produced(f)))
    ensures forall i :: 0 <= i < |r.content| && IsImageContent(r.content[i]) && imageStep(i, r.content[i]).Produced? ==>
              imageStep(i, r.content[i]).entry in out.files
    ensures forall i :: 0 <= i < |r.content| && IsAudioContent(r.content[i]) && audioStep(i, r.content[i]).Produced? ==>
              audioStep(i, r.content[i]).entry in out.files
    ensures Text.IsPrefix(out.text, Text.Join(Seqs.Somes(PartsOf(ItemEffects(r.content, imageStep, audioStep))), "\n"))
    ensures Truthy(r.structuredContent) <==>
              out.text != Text.Join(Seqs.Somes(PartsOf(ItemEffects(r.content, imageStep, audioStep))), "\n")
    ensures Truthy(r.structuredContent) ==>
              out.text == Text.Join(Seqs.Somes(PartsOf(ItemEffects(r.content, imageStep, audioStep))), "\n") +
                          ContentParser.StructuredSection("Structured Data", r.structuredContent, dumps)
  {
    ItemFilesComeFromMedia(r.content, imageStep, audioStep);
    ItemMediaFilesKept(r.content, imageStep, audioStep);
    Assemble(tool, ItemEffects(r.content, imageStep, audioStep), r.structuredContent, hasEmitter, dumps)
  }

  /** Every entry a media step produced is among the output files. */
  lemma ItemMediaFilesKept(cs: seq<Content>, imageStep: Step<Content>, audioStep: Step<Content>)
    ensures forall i :: 0 <= i < |cs| && IsImageContent(cs[i]) && imageStep(i, cs[i]).Produced? ==>
              imageStep(i, cs[i]).entry in Seqs.Somes(FilesOf(ItemEffects(cs, imageStep, audioStep)))
    ensures forall i :: 0 <= i < |cs| && IsAudioContent(cs[i]) && audioStep(i, cs[i]).Produced? ==>
              audioStep(i, cs[i]).entry in Seqs.Somes(FilesOf(ItemEffects(cs, imageStep, audioStep)))
  {
    var fs := FilesOf(ItemEffects(cs, imageStep, audioStep));
    forall i | 0 <= i < |cs| && IsImageContent(cs[i]) && imageStep(i, cs[i]).Produced?
      ensures imageStep(i, cs[i]).entry in Seqs.Somes(fs)
    {
      var _ := ContentClass(cs[i]);
      Seqs.SomesHas(fs, i);
    }
    forall i | 0 <= i < |cs| && IsAudioContent(cs[i]) && audioStep(i, cs[i]).Produced?
      ensures audioStep(i, cs[i]).entry in Seqs.Somes(fs)
    {
      var _ := ContentClass(cs[i]);
      Seqs.SomesHas(fs, i);
    }
  }

  /** Every file in the output was produced by the step of some image or audio item. */
  lemma ItemFilesComeFromMedia(cs: seq<Content>, imageStep: Step<Content>, audioStep: Step<Content>)
    ensures forall f :: f in Seqs.Somes(FilesOf(ItemEffects(cs, imageStep, audioStep))) ==>
              exists i :: 0 <= i < |cs| &&
                ((IsImageContent(cs[i]) && imageStep(i, cs[i]) == Produced(f)) ||
                 (IsAudioContent(cs[i]) && audioStep(i, cs[i]) == Produced(f)))
  {
    var fs := FilesOf(ItemEffects(cs, imageStep, audioStep));
    forall f | f in Seqs.Somes(fs)
      ensures exists i :: 0 <= i < |cs| &&
                ((IsImageContent(cs[i]) && imageStep(i, cs[i]) == Produced(f)) ||
                 (IsAudioContent(cs[i]) && audioStep(i, cs[i]) == Produced(f)))
    {
      var i := Seqs.SomesMember(fs, f);
    }
  }

  /** The message of the exception the step for media item `c` raised. */
  function RaisedMessage(c: Content, i: nat, imageStep: Step<Content>, audioStep: Step<Content>): string
    requires (IsImageContent(c) && imageStep(i, c).StepRaised?) || (IsAudioContent(c) && audioStep(i, c).StepRaised?)
  {
    if IsImageContent(c) then imageStep(i, c).message else audioStep(i, c).message
  }

  /**
   * One failing item does not abort the result: when the image or audio step for item
   * `i` raises, the parts are those of the items before it, one error placeholder, and
   * those of the items after it, and the item adds no file.
   */
  lemma ItemErrorContinues(cs: seq<Content>, i: nat, imageStep: Step<Content>, audioStep: Step<Content>)
    requires i < |cs|
    requires (IsImageContent(cs[i]) && imageStep(i, cs[i]).StepRaised?) ||
             (IsAudioContent(cs[i]) && audioStep(i, cs[i]).StepRaised?)
    ensures var parts := PartsOf(ItemEffects(cs, imageStep, audioStep));
            Seqs.Somes(parts) ==
              Seqs.Somes(parts[..i]) + ["[Error processing content: " + RaisedMessage(cs[i], i, imageStep, audioStep) + "]"] +
              Seqs.Somes(parts[i + 1..])
    ensures FilesOf(ItemEffects(cs, imageStep, audioStep))[i] == None
  {
    var _ := ContentClass(cs[i]);
    Seqs.SomesSplit(PartsOf(ItemEffects(cs, imageStep, audioStep)), i);
  }

  /**
   * With the real steps no error placeholder can appear, every text item contributes
   * its text, and a dictionary resource contributes nothing.
   */
  lemma RealItemEffects(cs: seq<Content>, tool: string, decode: string -> Bytes, encode: Bytes -> string,
                        uploadImage: string -> UploadReply, uploadFile: string -> UploadReply,
                        uuids: nat -> string, i: nat)
    requires i < |cs|
    ensures var e := ItemEffects(cs, ImageStep(tool, decode, encode, uploadImage, uuids),
                                 AudioStep(tool, decode, encode, uploadFile, uuids))[i];
            && (IsImageContent(cs[i]) || IsAudioContent(cs[i]) ==> (e.0.Some? <==> e.1.Some?))
            && (IsTextContent(cs[i]) ==> e == (Some(GetTextFromContent(cs[i])), None))
            && (cs[i].DictContent? && IsResourceContent(cs[i]) ==> e == (None, None))
  {
    var c := cs[i];
    var _ := ContentClass(c);
    assert ImageStep(tool, decode, encode, uploadImage, uuids)(i, c) ==
           ImageOutcome(tool, decode, encode, uploadImage, uuids, i, c);
    assert AudioStep(tool, decode, encode, uploadFile, uuids)(i, c) ==
           AudioOutcome(tool, decode, encode, uploadFile, uuids, i, c);
  }

  // ---------------------------------------------------------------------------
  // create_progress_callback and format_for_llm
  // ---------------------------------------------------------------------------

  /**
   * `create_progress_callback`: no callback without an emitter; otherwise a callback
   * turning each progress dictionary into a `tool_progress` event for `tool`.
   */
  function CreateProgressCallback(hasEmitter: bool, tool: string): (cb: Option<Dict -> Progress.ProgressEvent>)
    ensures cb.Some? <==> hasEmitter
    ensures cb.Some? ==> forall d :: cb.value(d) == Progress.ProgressPayload(tool, d)
  {
    if hasEmitter then Some((d: Dict) => Progress.ProgressPayload(tool, d)) else None
  }

  /** The callback's events always name the tool, and fill in the defaults for an empty dictionary. */
  lemma ProgressCallbackEvents(tool: string, d: Dict)
    ensures var cb := CreateProgressCallback(true, tool).value;
            && cb(d).tool == tool
            && cb([]) == Progress.ProgressEvent(tool, Num(0), Num(1), Num(0), Str(""))
  {
  }

  /**
   * `format_for_llm` of this module: the result's own LLM rendering, always with the
   * structured content included when it is truthy; it raises when that rendering does.
   */
  function FormatForLlm(r: CallToolResult, dumps: Json -> string): (s: Result<string>)
    ensures s.Failure? <==> ContentUtils.FormatForLlm(r, false, dumps).Failure?
    ensures s.Success? && Truthy(r.structuredContent) ==>
              s.value == ContentUtils.FormatForLlm(r, false, dumps).value +
                         ContentParser.StructuredSection("Structured Data", r.structuredContent, dumps)
    ensures !Truthy(r.structuredContent) ==> s == ContentUtils.FormatForLlm(r, false, dumps)
  {
    ContentUtils.FormatForLlm(r, true, dumps)
  }
}
