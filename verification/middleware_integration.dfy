/**
 * `middleware_integration.py`: turning a parsed tool result into the text handed to
 * the model plus the list of generated files, and the audience-aware LLM rendering.
 * Uploads, base64 decoding, uuid generation and event emission are parameters.
 */
module MiddlewareIntegration {
  import opened Wrappers
  import opened Json
  import Text
  import Seqs
  import opened ContentParser
  import opened ToolFiles
  import Progress

  // ---------------------------------------------------------------------------
  // Media processing
  // ---------------------------------------------------------------------------

  /**
   * `_process_image_content`: no entry when the decoded bytes are empty, the upload
   * raises or returns an empty URL; otherwise an image entry named
   * `mcp_image_<8 hex>.<extension>` pointing at the uploaded URL.
   */
  function ProcessImageContent(b: Block, decode: string -> Bytes, upload: (Bytes, string) -> UploadReply,
                               hex: string): (r: Option<FileEntry>)
    requires b.ImageBlock?
    ensures r.None? <==>
              |decode(b.data)| == 0 ||
              upload(decode(b.data), b.mimeType).UploadRaised? ||
              upload(decode(b.data), b.mimeType).url == ""
    ensures r.Some? ==>
              && r.value.kind == "image"
              && r.value.name == "mcp_image_" + Text.Take(hex, 8) + "." + ImageFileExtension(b)
              && r.value.location == Url(upload(decode(b.data), b.mimeType).url)
              && r.value.mimeType == b.mimeType
              && r.value.annotations == Some(b.annotations)
  {
    var bytes := decode(b.data);
    if |bytes| == 0 then None
    else
      match upload(bytes, b.mimeType)
      case UploadRaised(_) => None
      case Uploaded(url) =>
        if url == "" then None
        else Some(FileEntry("image", "mcp_image_" + Text.Take(hex, 8) + "." + ImageFileExtension(b), Url(url),
                            b.mimeType, Some(b.annotations)))
  }

  /**
   * `_process_audio_content`: no entry when the decoded bytes are empty; otherwise an
   * audio entry named `mcp_audio_<8 hex>.<extension>` that keeps the base64 payload.
   */
  function ProcessAudioContent(b: Block, decode: string -> Bytes, hex: string): (r: Option<FileEntry>)
    requires b.AudioBlock?
    ensures r.None? <==> |decode(b.data)| == 0
    ensures r.Some? ==>
              && r.value.kind == "audio"
              && r.value.name == "mcp_audio_" + Text.Take(hex, 8) + "." + AudioFileExtension(b)
              && r.value.location == InlineData(b.data)
              && r.value.mimeType == b.mimeType
              && r.value.annotations == Some(b.annotations)
  {
    if |decode(b.data)| == 0 then None
    else Some(FileEntry("audio", "mcp_audio_" + Text.Take(hex, 8) + "." + AudioFileExtension(b), InlineData(b.data),
                        b.mimeType, Some(b.annotations)))
  }

  /** The outcome of the image step on block `i`, which is given the i-th uuid. */
  function ImageOutcome(decode: string -> Bytes, upload: (Bytes, string) -> UploadReply, uuids: nat -> string,
                        i: nat, b: Block): (r: StepOutcome)
    ensures !r.StepRaised?
  {
    if b.ImageBlock? then AsOutcome(ProcessImageContent(b, decode, upload, uuids(i))) else NothingProduced
  }

  /** The outcome of the audio step on block `i`. */
  function AudioOutcome(decode: string -> Bytes, uuids: nat -> string, i: nat, b: Block): (r: StepOutcome)
    ensures !r.StepRaised?
  {
    if b.AudioBlock? then AsOutcome(ProcessAudioContent(b, decode, uuids(i))) else NothingProduced
  }

  /**
   * The image step `process_mcp_tool_result` runs with the real `_process_image_content`.
   * It never raises: that function catches every exception itself.
   */
  function ImageStep(decode: string -> Bytes, upload: (Bytes, string) -> UploadReply, uuids: nat -> string)
    : (step: Step<Block>)
    ensures forall i, b :: step(i, b) == ImageOutcome(decode, upload, uuids, i, b)
  {
    (i: nat, b: Block) => ImageOutcome(decode, upload, uuids, i, b)
  }

  /** The audio step with the real `_process_audio_content`; it never raises either. */
  function AudioStep(decode: string -> Bytes, uuids: nat -> string): (step: Step<Block>)
    ensures forall i, b :: step(i, b) == AudioOutcome(decode, uuids, i, b)
  {
    (i: nat, b: Block) => AudioOutcome(decode, uuids, i, b)
  }

  // ---------------------------------------------------------------------------
  // process_mcp_tool_result
  // ---------------------------------------------------------------------------

  /** What the loop body does for block `i`: at most one text part and at most one file. */
  function BlockEffect(i: nat, b: Block, imageStep: Step<Block>,
                       audioStep: Step<Block>): Effect
    requires Renderable(b)
  {
    match b
    case TextBlock(text, _, _) => (Some(text), None)
    case ImageBlock(_, _, _, _) =>
      (match imageStep(i, b)
       case Produced(f) => (Some("[Generated Image: " + f.name + "]"), Some(f))
       case NothingProduced => (None, None)
       case StepRaised(m) => (Some("[Image processing error: " + m + "]"), None))
    case AudioBlock(_, _, _, _) =>
      (match audioStep(i, b)
       case Produced(f) => (Some("[Generated Audio: " + f.name + "]"), Some(f))
       case NothingProduced => (None, None)
       case StepRaised(m) => (Some("[Audio processing error: " + m + "]"), None))
    case ResourceBlock(_, kind, _, _) =>
      if kind.TextResource? then (Some("[Resource: " + kind.uri + "]\n" + kind.text), None)
      else (Some("[Resource: " + kind.uri + " (" + kind.mimeType + ")]"), None)
  }

  function Effects(bs: seq<Block>, imageStep: Step<Block>, audioStep: Step<Block>)
    : (r: seq<Effect>)
    requires AllRenderable(bs)
    ensures |r| == |bs| && forall i :: 0 <= i < |bs| ==> r[i] == BlockEffect(i, bs[i], imageStep, audioStep)
  {
    seq(|bs|, i requires 0 <= i < |bs| => BlockEffect(i, bs[i], imageStep, audioStep))
  }

  /**
   * `process_mcp_tool_result`. A resource block whose kind is `OtherResource` makes the
   * loop read the unset `block.uri`, which raises AttributeError out of the call before
   * any event is emitted. Otherwise: the parts joined by newlines with the structured
   * section, the produced files, and one files event when there are files and an emitter.
   */
  function ProcessMcpToolResult(tool: string, r: ToolResult, hasEmitter: bool,
                                imageStep: Step<Block>, audioStep: Step<Block>,
                                dumps: Json -> string): (out: Result<ToolOutput>)
    ensures out.Failure? <==> exists i :: 0 <= i < |r.blocks| && !Renderable(r.blocks[i])
    ensures out.Failure? ==> out.error.AttributeError?
    ensures out.Success? ==> out.value.embeds == []
    ensures out.Success? ==> (out.value.filesEvent.Some? <==> |out.value.files| > 0 && hasEmitter)
    ensures out.Success? && out.value.filesEvent.Some? ==>
              out.value.filesEvent.value == FilesEvent(out.value.files, tool)
    ensures out.Success? ==> |out.value.files| <= |r.blocks|
    ensures out.Success? ==>
              forall f :: f in out.value.files ==>
                exists i :: 0 <= i < |r.blocks| &&
                  ((r.blocks[i].ImageBlock? && imageStep(i, r.blocks[i]) == Produced(f)) ||
                   (r.blocks[i].AudioBlock? && audioStep(i, r.blocks[i]) == Produced(f)))
    ensures out.Success? ==>
              forall i :: 0 <= i < |r.blocks| && r.blocks[i].ImageBlock? && imageStep(i, r.blocks[i]).Produced? ==>
                imageStep(i, r.blocks[i]).entry in out.value.files
    ensures out.Success? ==>
              forall i :: 0 <= i < |r.blocks| && r.blocks[i].AudioBlock? && audioStep(i, r.blocks[i]).Produced? ==>
                audioStep(i, r.blocks[i]).entry in out.value.files
    ensures out.Success? ==>
              Text.IsPrefix(out.value.text, Text.Join(Seqs.Somes(PartsOf(Effects(r.blocks, imageStep, audioStep))), "\n"))
    ensures out.Success? ==>
              (Truthy(r.structured) <==>
               out.value.text != Text.Join(Seqs.Somes(PartsOf(Effects(r.blocks, imageStep, audioStep))), "\n"))
    ensures out.Success? && Truthy(r.structured) ==>
              out.value.text == Text.Join(Seqs.Somes(PartsOf(Effects(r.blocks, imageStep, audioStep))), "\n") +
                                StructuredSection("Structured Data", r.structured, dumps)
  {
    if !AllRenderable(r.blocks) then
      Failure(AttributeError("'EmbeddedResourceBlock' object has no attribute 'uri'"))
    else
      FilesComeFromMedia(r.blocks, imageStep, audioStep);
      MediaFilesKept(r.blocks, imageStep, audioStep);
      Success(Assemble(tool, Effects(r.blocks, imageStep, audioStep), r.structured, hasEmitter, dumps))
  }

  /** Every entry a media step produced is among the output files. */
  lemma MediaFilesKept(bs: seq<Block>, imageStep: Step<Block>, audioStep: Step<Block>)
    requires AllRenderable(bs)
    ensures forall i :: 0 <= i < |bs| && bs[i].ImageBlock? && imageStep(i, bs[i]).Produced? ==>
              imageStep(i, bs[i]).entry in Seqs.Somes(FilesOf(Effects(bs, imageStep, audioStep)))
    ensures forall i :: 0 <= i < |bs| && bs[i].AudioBlock? && audioStep(i, bs[i]).Produced? ==>
              audioStep(i, bs[i]).entry in Seqs.Somes(FilesOf(Effects(bs, imageStep, audioStep)))
  {
    var fs := FilesOf(Effects(bs, imageStep, audioStep));
    forall i | 0 <= i < |bs| && fs[i].Some? ensures fs[i].value in Seqs.Somes(fs) {
      Seqs.SomesHas(fs, i);
    }
  }

  /** Every file in the output was produced by the step of some image or audio block. */
  lemma FilesComeFromMedia(bs: seq<Block>, imageStep: Step<Block>,
                           audioStep: Step<Block>)
    requires AllRenderable(bs)
    ensures forall f :: f in Seqs.Somes(FilesOf(Effects(bs, imageStep, audioStep))) ==>
              exists i :: 0 <= i < |bs| &&
                ((bs[i].ImageBlock? && imageStep(i, bs[i]) == Produced(f)) ||
                 (bs[i].AudioBlock? && audioStep(i, bs[i]) == Produced(f)))
  {
    var fs := FilesOf(Effects(bs, imageStep, audioStep));
    forall f | f in Seqs.Somes(fs)
      ensures exists i :: 0 <= i < |bs| &&
                ((bs[i].ImageBlock? && imageStep(i, bs[i]) == Produced(f)) ||
                 (bs[i].AudioBlock? && audioStep(i, bs[i]) == Produced(f)))
    {
      var i := Seqs.SomesMember(fs, f);
    }
  }

  /** The placeholder the `except` branch appends when the step for block `b` raises. */
  function StepErrorText(b: Block, i: nat, imageStep: Step<Block>, audioStep: Step<Block>): string
    requires (b.ImageBlock? && imageStep(i, b).StepRaised?) || (b.AudioBlock? && audioStep(i, b).StepRaised?)
  {
    if b.ImageBlock? then "[Image processing error: " + imageStep(i, b).message + "]"
    else "[Audio processing error: " + audioStep(i, b).message + "]"
  }

  /**
   * One bad block does not abort the result: when the image or audio step for block
   * `i` raises, the text parts are those of the blocks before it, one error placeholder,
   * and those of the blocks after it, and the block adds no file.
   */
  lemma StepErrorContinues(bs: seq<Block>, i: nat, imageStep: Step<Block>,
                           audioStep: Step<Block>)
    requires AllRenderable(bs) && i < |bs|
    requires (bs[i].ImageBlock? && imageStep(i, bs[i]).StepRaised?) ||
             (bs[i].AudioBlock? && audioStep(i, bs[i]).StepRaised?)
    ensures var parts := PartsOf(Effects(bs, imageStep, audioStep));
            Seqs.Somes(parts) ==
              Seqs.Somes(parts[..i]) + [StepErrorText(bs[i], i, imageStep, audioStep)] + Seqs.Somes(parts[i + 1..])
    ensures FilesOf(Effects(bs, imageStep, audioStep))[i] == None
  {
    Seqs.SomesSplit(PartsOf(Effects(bs, imageStep, audioStep)), i);
  }

  /** An image contributes a placeholder and a file exactly when its step produced an entry. */
  lemma ImageEffect(bs: seq<Block>, i: nat, imageStep: Step<Block>,
                    audioStep: Step<Block>)
    requires AllRenderable(bs) && i < |bs| && bs[i].ImageBlock?
    ensures var e := Effects(bs, imageStep, audioStep)[i];
            && (e.1.Some? <==> imageStep(i, bs[i]).Produced?)
            && (imageStep(i, bs[i]).Produced? ==>
                  e == (Some("[Generated Image: " + imageStep(i, bs[i]).entry.name + "]"), Some(imageStep(i, bs[i]).entry)))
            && (imageStep(i, bs[i]).NothingProduced? ==> e == (None, None))
  {
  }

  /** An audio block contributes a placeholder and a file exactly when its step produced an entry. */
  lemma AudioEffect(bs: seq<Block>, i: nat, imageStep: Step<Block>,
                    audioStep: Step<Block>)
    requires AllRenderable(bs) && i < |bs| && bs[i].AudioBlock?
    ensures var e := Effects(bs, imageStep, audioStep)[i];
            && (e.1.Some? <==> audioStep(i, bs[i]).Produced?)
            && (audioStep(i, bs[i]).Produced? ==>
                  e == (Some("[Generated Audio: " + audioStep(i, bs[i]).entry.name + "]"), Some(audioStep(i, bs[i]).entry)))
            && (audioStep(i, bs[i]).NothingProduced? ==> e == (None, None))
  {
  }

  /**
   * With the real media steps no processing-error placeholder can appear: a media
   * block adds a text part exactly when it adds a file.
   */
  lemma RealStepsNeverFail(bs: seq<Block>, decode: string -> Bytes, upload: (Bytes, string) -> UploadReply,
                           uuids: nat -> string, i: nat)
    requires AllRenderable(bs) && i < |bs|
    requires bs[i].ImageBlock? || bs[i].AudioBlock?
    ensures var e := Effects(bs, ImageStep(decode, upload, uuids), AudioStep(decode, uuids))[i];
            e.0.Some? <==> e.1.Some?
  {
    var imageStep, audioStep := ImageStep(decode, upload, uuids), AudioStep(decode, uuids);
    assert imageStep(i, bs[i]) == ImageOutcome(decode, upload, uuids, i, bs[i]);
    assert audioStep(i, bs[i]) == AudioOutcome(decode, uuids, i, bs[i]);
  }

  // ---------------------------------------------------------------------------
  // format_mcp_tool_call_for_llm
  // ---------------------------------------------------------------------------

  /**
   * `audience and "assistant" not in audience`: a block is skipped when it has a truthy
   * audience without "assistant". A raising audience lookup propagates, and a truthy
   * boolean or numeric audience makes `in` raise TypeError.
   */
  function SkipForAssistant(b: Block): (r: Result<bool>)
    ensures GetAudience(b).Failure? ==> r == Failure(GetAudience(b).error)
    ensures GetAudience(b) == Success(None) ==> r == Success(false)
    ensures r.Failure? <==>
              GetAudience(b).Failure? ||
              (GetAudience(b).value.Some? && Truthy(GetAudience(b).value.value) &&
               (GetAudience(b).value.value.Bool? || GetAudience(b).value.value.Num?))
    ensures GetAudience(b).Success? && GetAudience(b).value.Some? && GetAudience(b).value.value.Arr? ==>
              r == Success(|GetAudience(b).value.value.items| > 0 &&
                           Str("assistant") !in GetAudience(b).value.value.items)
  {
    var a :- GetAudience(b);
    if a.None? || !Truthy(a.value) then Success(false)
    else
      var has :- PyIn("assistant", a.value);
      Success(!has)
  }

  /**
   * One iteration of the loop: nothing for a skipped block, else its part, with media
   * as placeholders naming only the mime type. A kept `OtherResource` raises
   * AttributeError on the unset `block.uri`.
   */
  function AssistantPart(b: Block): (r: Result<Option<string>>)
    ensures r.Failure? <==> SkipForAssistant(b).Failure? || (SkipForAssistant(b) == Success(false) && !Renderable(b))
    ensures SkipForAssistant(b) == Success(true) ==> r == Success(None)
    ensures SkipForAssistant(b) == Success(false) && b.TextBlock? ==> r == Success(Some(b.text))
    ensures SkipForAssistant(b) == Success(false) && b.ImageBlock? ==>
              r == Success(Some("[Image generated: " + b.mimeType + "]"))
    ensures SkipForAssistant(b) == Success(false) && b.AudioBlock? ==>
              r == Success(Some("[Audio generated: " + b.mimeType + "]"))
    ensures SkipForAssistant(b) == Success(false) && b.ResourceBlock? && b.kind.TextResource? ==>
              r == Success(Some("[Resource: " + b.kind.uri + "]\n" + b.kind.text))
    ensures SkipForAssistant(b) == Success(false) && b.ResourceBlock? && b.kind.BlobResource? ==>
              r == Success(Some("[Resource: " + b.kind.uri + "]"))
  {
    var skip :- SkipForAssistant(b);
    if skip then Success(None)
    else
      match b
      case TextBlock(text, _, _) => Success(Some(text))
      case ImageBlock(_, mime, _, _) => Success(Some("[Image generated: " + mime + "]"))
      case AudioBlock(_, mime, _, _) => Success(Some("[Audio generated: " + mime + "]"))
      case ResourceBlock(_, kind, _, _) =>
        if kind.TextResource? then Success(Some("[Resource: " + kind.uri + "]\n" + kind.text))
        else if kind.BlobResource? then Success(Some("[Resource: " + kind.uri + "]"))
        else Failure(AttributeError("'EmbeddedResourceBlock' object has no attribute 'uri'"))
  }

  function AssistantParts(bs: seq<Block>): (r: seq<Result<Option<string>>>)
    ensures |r| == |bs| && forall i :: 0 <= i < |bs| ==> r[i] == AssistantPart(bs[i])
  {
    Seqs.Map(AssistantPart, bs)
  }

  lemma AssistantPartsAppend(a: seq<Block>, b: seq<Block>)
    ensures AssistantParts(a + b) == AssistantParts(a) + AssistantParts(b)
  {
    Seqs.MapAppend(AssistantPart, a, b);
  }

  /**
   * `format_mcp_tool_call_for_llm`: the kept parts joined by newlines, then the
   * "[Structured Output]" section for truthy structured content. The first block whose
   * iteration raises aborts the call with that exception.
   */
  function FormatMcpToolCallForLlm(tool: string, r: ToolResult, dumps: Json -> string): (s: Result<string>)
    ensures s.Failure? <==> exists i :: 0 <= i < |r.blocks| && AssistantPart(r.blocks[i]).Failure?
    ensures s.Failure? ==>
              exists i :: 0 <= i < |r.blocks| && AssistantPart(r.blocks[i]) == Failure(s.error) &&
                forall j :: 0 <= j < i ==> AssistantPart(r.blocks[j]).Success?
    ensures s.Success? ==> Seqs.Gather(AssistantParts(r.blocks)).Success?
    ensures s.Success? ==> Text.IsPrefix(s.value, Text.Join(Seqs.Gather(AssistantParts(r.blocks)).value, "\n"))
    ensures s.Success? ==> (s.value == Text.Join(Seqs.Gather(AssistantParts(r.blocks)).value, "\n") <==>
                            !Truthy(r.structured))
    ensures s.Success? && Truthy(r.structured) ==>
              s.value == Text.Join(Seqs.Gather(AssistantParts(r.blocks)).value, "\n") +
                         StructuredSection("Structured Output", r.structured, dumps)
  {
    Seqs.GatherFailure(AssistantParts(r.blocks));
    var parts :- Seqs.Gather(AssistantParts(r.blocks));
    var body := Text.Join(parts, "\n");
    Success(if Truthy(r.structured) then body + StructuredSection("Structured Output", r.structured, dumps) else body)
  }

  /**
   * The skip rule: a block contributes nothing exactly when it carries a truthy
   * audience without "assistant". A renderable block with no audience, or with an
   * empty audience list, is always kept; a truthy boolean or numeric audience raises
   * TypeError.
   */
  lemma AssistantPartSkipRule(b: Block)
    ensures AssistantPart(b) == Success(None) <==> SkipForAssistant(b) == Success(true)
    ensures Renderable(b) && (GetAudience(b) == Success(None) || GetAudience(b) == Success(Some(Arr([])))) ==>
              AssistantPart(b).Success? && AssistantPart(b).value.Some?
    ensures GetAudience(b).Success? && GetAudience(b).value.Some? && Truthy(GetAudience(b).value.value) &&
            (GetAudience(b).value.value.Bool? || GetAudience(b).value.value.Num?) ==>
              AssistantPart(b).Failure? && AssistantPart(b).error.TypeError?
  {
  }

  /** A skipped block can sit anywhere without changing the rendering. */
  lemma FormatMcpToolCallSkips(tool: string, r: ToolResult, a: seq<Block>, x: Block, b: seq<Block>,
                               dumps: Json -> string)
    requires SkipForAssistant(x) == Success(true)
    ensures FormatMcpToolCallForLlm(tool, r.(blocks := a + [x] + b), dumps) ==
            FormatMcpToolCallForLlm(tool, r.(blocks := a + b), dumps)
  {
    var pa, pb := AssistantParts(a), AssistantParts(b);
    assert AssistantParts([x]) == [Success(None)];
    AssistantPartsAppend(a + [x], b);
    AssistantPartsAppend(a, [x]);
    AssistantPartsAppend(a, b);
    assert AssistantParts(a + [x] + b) == pa + [Success(None)] + pb;
    Seqs.GatherSkipNone(pa, pb);
  }

  /** Blanking a block's payload does not change what the loop does with it. */
  lemma AssistantPartErase(b: Block)
    ensures AssistantPart(Erase(b)) == AssistantPart(b)
  {
    assert Erase(b).annotations == b.annotations;
    assert GetAudience(Erase(b)) == GetAudience(b);
  }

  /** The rendering is blind to image/audio `data`, blob payloads and raw resource dictionaries. */
  lemma FormatMcpToolCallIgnoresPayloads(tool: string, r1: ToolResult, r2: ToolResult, dumps: Json -> string)
    requires |r1.blocks| == |r2.blocks|
    requires forall i :: 0 <= i < |r1.blocks| ==> Erase(r1.blocks[i]) == Erase(r2.blocks[i])
    requires r1.structured == r2.structured
    ensures FormatMcpToolCallForLlm(tool, r1, dumps) == FormatMcpToolCallForLlm(tool, r2, dumps)
  {
    forall i | 0 <= i < |r1.blocks| ensures AssistantPart(r1.blocks[i]) == AssistantPart(r2.blocks[i]) {
      AssistantPartErase(r1.blocks[i]);
      AssistantPartErase(r2.blocks[i]);
    }
    assert AssistantParts(r1.blocks) == AssistantParts(r2.blocks);
  }

  // ---------------------------------------------------------------------------
  // create_mcp_progress_callback
  // ---------------------------------------------------------------------------

  /**
   * The event the callback from `create_mcp_progress_callback` emits for one progress
   * dictionary: none without an emitter, otherwise the payload with its defaults.
   */
  function OnProgress(hasEmitter: bool, tool: string, data: Dict): (e: Option<Progress.ProgressEvent>)
    ensures e.Some? <==> hasEmitter
    ensures e.Some? ==> e.value.tool == tool
    ensures hasEmitter ==> e == Some(Progress.ProgressPayload(tool, data))
    ensures hasEmitter && data == [] ==>
              e == Some(Progress.ProgressEvent(tool, Num(0), Num(1), Num(0), Str("")))
  {
    if hasEmitter then Some(Progress.ProgressPayload(tool, data)) else None
  }
}
