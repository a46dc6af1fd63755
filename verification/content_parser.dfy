/**
 * The tool-result content model of `content_parser.py`: a closed variant of
 * content blocks parsed from the dictionary `CallToolResult.model_dump(mode="json")`,
 * the result accessors, and the LLM rendering without audience filtering.
 */
module ContentParser {
  import opened Wrappers
  import opened Json
  import Text
  import Seqs

  /** What `EmbeddedResourceBlock.__init__` extracts, decided by `resource["type"]`. */
  datatype ResourceKind =
    | TextResource(uri: string, text: string, mimeType: string)
    | BlobResource(uri: string, blob: string, mimeType: string)
      /** Neither "text" nor "blob": the block never receives `uri`, `text` or `mime_type`. */
    | OtherResource

  datatype Block =
    | TextBlock(text: string, annotations: Json, meta: Json)
    | ImageBlock(data: string, mimeType: string, annotations: Json, meta: Json)
    | AudioBlock(data: string, mimeType: string, annotations: Json, meta: Json)
    | ResourceBlock(resource: Json, kind: ResourceKind, annotations: Json, meta: Json)

  datatype ToolResult = ToolResult(blocks: seq<Block>, structured: Json, isError: Json, meta: Json)

  /** The four block classes, used as the reference classification of a block. */
  datatype Kind = KText | KImage | KAudio | KResource

  function KindOf(b: Block): Kind {
    match b
    case TextBlock(_, _, _) => KText
    case ImageBlock(_, _, _, _) => KImage
    case AudioBlock(_, _, _, _) => KAudio
    case ResourceBlock(_, _, _, _) => KResource
  }

  /** The class a raw block declares through its `type` field, if it is a known one. */
  function DeclaredKind(d: Dict): Option<Kind> {
    var t := Get(d, "type", Null);
    if t == Str("text") then Some(KText)
    else if t == Str("image") then Some(KImage)
    else if t == Str("audio") then Some(KAudio)
    else if t == Str("resource") then Some(KResource)
    else None
  }

  // ---------------------------------------------------------------------------
  // Annotation getters of MCPContentBlock
  // ---------------------------------------------------------------------------

  /** The annotations are a dictionary holding `key`. */
  predicate HasAnnotation(b: Block, key: string) {
    b.annotations.Obj? && HasKey(b.annotations.fields, key)
  }

  /**
   * When `annotations and key in annotations` followed by `annotations[key]` raises
   * TypeError: `in` on a truthy boolean or number, or a subscript by a string on a
   * list or string that contains `key`.
   */
  predicate AnnotationLookupRaises(ann: Json, key: string) {
    Truthy(ann) &&
    (ann.Bool? || ann.Num? || (ann.Arr? && Str(key) in ann.items) || (ann.Str? && Text.Contains(ann.s, key)))
  }

  /**
   * `if self.annotations and key in self.annotations: return self.annotations[key]`:
   * the value stored under `key` in dictionary annotations, nothing when the
   * annotations are falsy or lack the key, or the TypeError a malformed value raises.
   */
  function GetAnnotation(b: Block, key: string): (r: Result<Option<Json>>)
    ensures r.Success? && r.value.Some? <==> HasAnnotation(b, key)
    ensures r.Success? && r.value.Some? ==>
              exists i :: 0 <= i < |b.annotations.fields| && b.annotations.fields[i] == (key, r.value.value)
    ensures r.Failure? <==> AnnotationLookupRaises(b.annotations, key)
    ensures r.Failure? ==> r.error.TypeError?
  {
    var ann := b.annotations;
    if !Truthy(ann) then Success(None)
    else
      var found :- PyIn(key, ann);
      if !found then Success(None)
      else if ann.Obj? then Success(Some(Get(ann.fields, key, Null)))
      else Failure(TypeError(TypeName(ann) + " indices must be integers"))
  }

  /** `get_priority()`. */
  function GetPriority(b: Block): (r: Result<Option<Json>>)
    ensures r.Success? && r.value.Some? <==> HasAnnotation(b, "priority")
    ensures r.Success? && r.value.Some? ==> r.value.value == Get(b.annotations.fields, "priority", Null)
    ensures r.Failure? <==> AnnotationLookupRaises(b.annotations, "priority")
    ensures r.Failure? ==> r.error.TypeError?
  {
    GetAnnotation(b, "priority")
  }

  /** `get_audience()`. */
  function GetAudience(b: Block): (r: Result<Option<Json>>)
    ensures r.Success? && r.value.Some? <==> HasAnnotation(b, "audience")
    ensures r.Success? && r.value.Some? ==> r.value.value == Get(b.annotations.fields, "audience", Null)
    ensures r.Failure? <==> AnnotationLookupRaises(b.annotations, "audience")
    ensures r.Failure? ==> r.error.TypeError?
  {
    GetAnnotation(b, "audience")
  }

  // ---------------------------------------------------------------------------
  // File extensions of media blocks
  // ---------------------------------------------------------------------------

  const ImageExtensions: map<string, string> :=
    map["image/png" := "png", "image/jpeg" := "jpg", "image/jpg" := "jpg",
        "image/gif" := "gif", "image/webp" := "webp", "image/svg+xml" := "svg"]

  const AudioExtensions: map<string, string> :=
    map["audio/wav" := "wav", "audio/mpeg" := "mp3", "audio/mp3" := "mp3",
        "audio/ogg" := "ogg", "audio/webm" := "webm", "audio/flac" := "flac"]

  /** `ImageContentBlock.get_file_extension()`: a known extension, "png" for an unmapped type. */
  function ImageFileExtension(b: Block): (r: string)
    requires b.ImageBlock?
    ensures r in {"png", "jpg", "gif", "webp", "svg"}
    ensures b.mimeType !in ImageExtensions ==> r == "png"
    ensures b.mimeType in ImageExtensions ==> r == ImageExtensions[b.mimeType]
  {
    if b.mimeType in ImageExtensions then ImageExtensions[b.mimeType] else "png"
  }

  /** `AudioContentBlock.get_file_extension()`: a known extension, "wav" for an unmapped type. */
  function AudioFileExtension(b: Block): (r: string)
    requires b.AudioBlock?
    ensures r in {"wav", "mp3", "ogg", "webm", "flac"}
    ensures b.mimeType !in AudioExtensions ==> r == "wav"
    ensures b.mimeType in AudioExtensions ==> r == AudioExtensions[b.mimeType]
  {
    if b.mimeType in AudioExtensions then AudioExtensions[b.mimeType] else "wav"
  }

  // ---------------------------------------------------------------------------
  // Parsing
  // ---------------------------------------------------------------------------

  /** `TextContentBlock({"text": s})`: a text block without annotations or metadata. */
  function PlainText(s: string): Block {
    TextBlock(s, Null, Null)
  }

  /** The resource part of `EmbeddedResourceBlock.__init__`; a non-dictionary resource raises. */
  function ParseResource(res: Json): (r: Result<ResourceKind>)
    ensures r.Failure? <==> !res.Obj?
    ensures r.Success? ==> (r.value.TextResource? <==> Get(res.fields, "type", Null) == Str("text"))
    ensures r.Success? ==> (r.value.BlobResource? <==> Get(res.fields, "type", Null) == Str("blob"))
    ensures r.Success? && !r.value.OtherResource? && !HasKey(res.fields, "uri") ==> r.value.uri == ""
    ensures r.Success? && !r.value.OtherResource? && Get(res.fields, "uri", Str("")).Str? ==>
              r.value.uri == Get(res.fields, "uri", Str("")).s
    ensures r.Success? && r.value.TextResource? && !HasKey(res.fields, "text") ==> r.value.text == ""
    ensures r.Success? && r.value.BlobResource? && !HasKey(res.fields, "blob") ==> r.value.blob == ""
    ensures r.Success? && r.value.BlobResource? && !HasKey(res.fields, "mimeType") ==>
              r.value.mimeType == "application/octet-stream"
    ensures r.Success? && r.value.TextResource? && !HasKey(res.fields, "mimeType") ==> r.value.mimeType == "None"
    // A string stored under a key reaches the result unchanged.
    ensures r.Success? && r.value.TextResource? && Get(res.fields, "text", Str("")).Str? ==>
              r.value.text == Get(res.fields, "text", Str("")).s
    ensures r.Success? && r.value.TextResource? && Get(res.fields, "mimeType", Null).Str? ==>
              r.value.mimeType == Get(res.fields, "mimeType", Null).s
    ensures r.Success? && r.value.BlobResource? && Get(res.fields, "blob", Str("")).Str? ==>
              r.value.blob == Get(res.fields, "blob", Str("")).s
    ensures r.Success? && r.value.BlobResource? && Get(res.fields, "mimeType", Str("application/octet-stream")).Str? ==>
              r.value.mimeType == Get(res.fields, "mimeType", Str("application/octet-stream")).s
  {
    match res
    case Obj(d) =>
      var t := Get(d, "type", Null);
      if t == Str("text") then
        Success(TextResource(StrGet(d, "uri", Str("")), StrGet(d, "text", Str("")), StrGet(d, "mimeType", Null)))
      else if t == Str("blob") then
        Success(BlobResource(StrGet(d, "uri", Str("")), StrGet(d, "blob", Str("")),
                             StrGet(d, "mimeType", Str("application/octet-stream"))))
      else
        Success(OtherResource)
    case _ => Failure(AttributeError("'resource' has no attribute 'get'"))
  }

  /**
   * `parse_content_block`: dispatch on `type`. An unknown or missing type gives a
   * text block holding `str(block_data)`; the call raises only when the item is not a
   * dictionary or a resource block's `resource` is not one.
   */
  function ParseContentBlock(item: Json): (r: Result<Block>)
    ensures r.Failure? <==>
              !item.Obj? ||
              (DeclaredKind(item.fields) == Some(KResource) && !Get(item.fields, "resource", Obj([])).Obj?)
    ensures r.Success? && DeclaredKind(item.fields).Some? ==>
              KindOf(r.value) == DeclaredKind(item.fields).value &&
              r.value.annotations == Get(item.fields, "annotations", Null) &&
              r.value.meta == Get(item.fields, "_meta", Null)
    ensures r.Success? && DeclaredKind(item.fields).None? ==> r.value == PlainText(PyStr(item))
    ensures r.Success? && r.value.ImageBlock? && !HasKey(item.fields, "mimeType") ==>
              r.value.mimeType == "image/png"
    ensures r.Success? && r.value.AudioBlock? && !HasKey(item.fields, "mimeType") ==>
              r.value.mimeType == "audio/wav"
    // A string stored under a key reaches the block unchanged.
    ensures r.Success? && DeclaredKind(item.fields) == Some(KText) && Get(item.fields, "text", Str("")).Str? ==>
              r.value.text == Get(item.fields, "text", Str("")).s
    ensures r.Success? && (r.value.ImageBlock? || r.value.AudioBlock?) && Get(item.fields, "data", Str("")).Str? ==>
              r.value.data == Get(item.fields, "data", Str("")).s
    ensures r.Success? && r.value.ImageBlock? && Get(item.fields, "mimeType", Str("image/png")).Str? ==>
              r.value.mimeType == Get(item.fields, "mimeType", Str("image/png")).s
    ensures r.Success? && r.value.AudioBlock? && Get(item.fields, "mimeType", Str("audio/wav")).Str? ==>
              r.value.mimeType == Get(item.fields, "mimeType", Str("audio/wav")).s
    ensures r.Success? && r.value.ResourceBlock? ==>
              && r.value.resource == Get(item.fields, "resource", Obj([]))
              && ParseResource(r.value.resource) == Success(r.value.kind)
  {
    match item
    case Obj(d) =>
      var ann := Get(d, "annotations", Null);
      var meta := Get(d, "_meta", Null);
      var k := DeclaredKind(d);
      if k == Some(KText) then
        Success(TextBlock(StrGet(d, "text", Str("")), ann, meta))
      else if k == Some(KImage) then
        Success(ImageBlock(StrGet(d, "data", Str("")), StrGet(d, "mimeType", Str("image/png")), ann, meta))
      else if k == Some(KAudio) then
        Success(AudioBlock(StrGet(d, "data", Str("")), StrGet(d, "mimeType", Str("audio/wav")), ann, meta))
      else if k == Some(KResource) then
        var res := Get(d, "resource", Obj([]));
        var kind :- ParseResource(res);
        Success(ResourceBlock(res, kind, ann, meta))
      else
        Success(PlainText(PyStr(item)))
    case _ => Failure(AttributeError("object has no attribute 'get'"))
  }

  /** One iteration of the loop in `parse_tool_result`: a block that raises becomes a parse-error text. */
  function ParseOrFallback(item: Json): Block {
    match ParseContentBlock(item)
    case Success(b) => b
    case Failure(_) => PlainText("[Parse Error: " + PyStr(item) + "]")
  }

  /**
   * `parse_tool_result`: one block per content item, in order, with the documented
   * defaults for missing fields. It raises only when `content` is not iterable.
   */
  function ParseToolResult(data: Dict): (r: Result<ToolResult>)
    ensures r.Success? <==> Iterate(Get(data, "content", Arr([]))).Success?
    ensures !HasKey(data, "content") ==> r.Success? && r.value.blocks == []
    ensures r.Success? ==>
              && (!HasKey(data, "isError") ==> r.value.isError == Bool(false))
              && (!HasKey(data, "structuredContent") ==> r.value.structured == Null)
              && (!HasKey(data, "_meta") ==> r.value.meta == Null)
    ensures r.Success? ==>
              && r.value.structured == Get(data, "structuredContent", Null)
              && r.value.isError == Get(data, "isError", Bool(false))
              && r.value.meta == Get(data, "_meta", Null)
    ensures r.Success? ==>
              var items := Iterate(Get(data, "content", Arr([]))).value;
              && |r.value.blocks| == |items|
              && forall i :: 0 <= i < |items| ==>
                   (ParseContentBlock(items[i]).Success? ==> r.value.blocks[i] == ParseContentBlock(items[i]).value) &&
                   (ParseContentBlock(items[i]).Failure? ==>
                      r.value.blocks[i] == PlainText("[Parse Error: " + PyStr(items[i]) + "]"))
  {
    var items :- Iterate(Get(data, "content", Arr([])));
    var blocks := seq(|items|, i requires 0 <= i < |items| => ParseOrFallback(items[i]));
    Success(ToolResult(blocks, Get(data, "structuredContent", Null), Get(data, "isError", Bool(false)),
                       Get(data, "_meta", Null)))
  }

  // ---------------------------------------------------------------------------
  // MCPToolResult accessors
  // ---------------------------------------------------------------------------

  /** Blocks that `get_text_content` reads: text blocks and text resources. */
  predicate IsTextual(b: Block) {
    b.TextBlock? || (b.ResourceBlock? && b.kind.TextResource?)
  }

  function TextOf(b: Block): string
    requires IsTextual(b)
  {
    if b.TextBlock? then b.text else b.kind.text
  }

  /** What one block adds to `get_text_content`. */
  function TextPiece(b: Block): Option<string> {
    if IsTextual(b) then Some(TextOf(b)) else None
  }

  function TextPieces(bs: seq<Block>): (r: seq<Option<string>>)
    ensures |r| == |bs| && forall i :: 0 <= i < |bs| ==> r[i] == TextPiece(bs[i])
  {
    seq(|bs|, i requires 0 <= i < |bs| => TextPiece(bs[i]))
  }

  /** The texts `get_text_content` collects, in block order. */
  function Texts(bs: seq<Block>): seq<string> {
    Seqs.Somes(TextPieces(bs))
  }

  /** Texts of a concatenation are the concatenation of the texts: block order is kept. */
  lemma TextsAppend(a: seq<Block>, b: seq<Block>)
    ensures Texts(a + b) == Texts(a) + Texts(b)
  {
    assert TextPieces(a + b) == TextPieces(a) + TextPieces(b);
    Seqs.SomesAppend(TextPieces(a), TextPieces(b));
  }

  /** An image, audio, blob or unparsed resource block changes nothing in the collected texts. */
  lemma TextsSkipNonTextual(a: seq<Block>, x: Block, b: seq<Block>)
    requires !IsTextual(x)
    ensures Texts(a + [x] + b) == Texts(a + b)
  {
    TextsAppend(a + [x], b);
    TextsAppend(a, [x]);
    assert TextPieces([x]) == [None];
    Seqs.SomesSingle<string>(None);
    TextsAppend(a, b);
  }

  /** `get_text_content`: the newline-join of the collected texts. */
  function GetTextContent(r: ToolResult): string {
    Text.Join(Texts(r.blocks), "\n")
  }

  /** The blocks of one class, in order (`get_image_blocks` and friends). */
  function BlocksOfKind(bs: seq<Block>, k: Kind): (r: seq<Block>)
    ensures |r| <= |bs|
    ensures forall x :: x in r ==> x in bs && KindOf(x) == k
    ensures forall i :: 0 <= i < |bs| && KindOf(bs[i]) == k ==> bs[i] in r
    decreases |bs|
  {
    if |bs| == 0 then []
    else
      var last := bs[|bs| - 1];
      var front := BlocksOfKind(bs[..|bs| - 1], k);
      assert forall i :: 0 <= i < |bs| - 1 ==> bs[..|bs| - 1][i] == bs[i];
      front + (if KindOf(last) == k then [last] else [])
  }

  /** Selecting from two lists laid end to end selects from each, keeping block order. */
  lemma {:induction false} BlocksOfKindAppend(a: seq<Block>, b: seq<Block>, k: Kind)
    ensures BlocksOfKind(a + b, k) == BlocksOfKind(a, k) + BlocksOfKind(b, k)
    decreases |b|
  {
    if |b| == 0 {
      assert a + b == a;
    } else {
      var b', last := b[..|b| - 1], b[|b| - 1];
      var tail := if KindOf(last) == k then [last] else [];
      assert (a + b)[..|a + b| - 1] == a + b';
      assert (a + b)[|a + b| - 1] == last;
      assert BlocksOfKind(a + b, k) == BlocksOfKind(a + b', k) + tail;
      assert BlocksOfKind(b, k) == BlocksOfKind(b', k) + tail;
      BlocksOfKindAppend(a, b', k);
    }
  }

  /** Each block of the class is kept as often as it occurs, and no other block is kept. */
  lemma {:induction false} BlocksOfKindCount(bs: seq<Block>, k: Kind, x: Block)
    ensures multiset(BlocksOfKind(bs, k))[x] == if KindOf(x) == k then multiset(bs)[x] else 0
    decreases |bs|
  {
    if |bs| > 0 {
      var front, last := bs[..|bs| - 1], bs[|bs| - 1];
      assert bs == front + [last];
      BlocksOfKindCount(front, k, x);
      assert BlocksOfKind(bs, k) == BlocksOfKind(front, k) + (if KindOf(last) == k then [last] else []);
    }
  }

  /** One block is kept exactly when it has the class. */
  lemma BlocksOfKindSingle(x: Block, k: Kind)
    ensures BlocksOfKind([x], k) == if KindOf(x) == k then [x] else []
  {
    assert [x][..0] == [];
  }

  function GetImageBlocks(r: ToolResult): seq<Block> { BlocksOfKind(r.blocks, KImage) }

  function GetAudioBlocks(r: ToolResult): seq<Block> { BlocksOfKind(r.blocks, KAudio) }

  function GetResourceBlocks(r: ToolResult): seq<Block> { BlocksOfKind(r.blocks, KResource) }

  /** `has_media()`: some block is an image or an audio clip. */
  function HasMedia(r: ToolResult): (h: bool)
    ensures h <==> exists i :: 0 <= i < |r.blocks| && (r.blocks[i].ImageBlock? || r.blocks[i].AudioBlock?)
  {
    var images := GetImageBlocks(r);
    var audio := GetAudioBlocks(r);
    if |images| > 0 then
      assert images[0] in images;
      true
    else if |audio| > 0 then
      assert audio[0] in audio;
      true
    else
      false
  }

  // ---------------------------------------------------------------------------
  // LLM rendering without audience filtering
  // ---------------------------------------------------------------------------

  /** A block `format_for_llm` can render without raising: every block except an `OtherResource`. */
  predicate Renderable(b: Block) {
    !(b.ResourceBlock? && b.kind.OtherResource?)
  }

  predicate AllRenderable(bs: seq<Block>) {
    forall i :: 0 <= i < |bs| ==> Renderable(bs[i])
  }

  /** The text one block contributes to the LLM string; media become placeholders. */
  function LlmPart(b: Block): string
    requires Renderable(b)
  {
    match b
    case TextBlock(text, _, _) => text
    case ImageBlock(_, mime, _, _) => "[Image: " + mime + "]"
    case AudioBlock(_, mime, _, _) => "[Audio: " + mime + "]"
    case ResourceBlock(_, kind, _, _) =>
      if kind.TextResource? then "[Resource: " + kind.uri + "]\n" + kind.text
      else "[Resource: " + kind.uri + " (" + kind.mimeType + ")]"
  }

  /** The section appended for truthy structured content. */
  function StructuredSection(header: string, structured: Json, dumps: Json -> string): string {
    "\n\n[" + header + "]\n" + dumps(structured)
  }

  /** The newline-join of the per-block parts. */
  function LlmBody(bs: seq<Block>): string
    requires AllRenderable(bs)
  {
    Text.Join(LlmParts(bs), "\n")
  }

  function LlmParts(bs: seq<Block>): (r: seq<string>)
    requires AllRenderable(bs)
    ensures |r| == |bs| && forall i :: 0 <= i < |bs| ==> r[i] == LlmPart(bs[i])
  {
    seq(|bs|, i requires 0 <= i < |bs| => LlmPart(bs[i]))
  }

  /**
   * `MCPContentParser.format_for_llm`: the newline-join of the parts, then the
   * "[Structured Data]" section. A resource block of unknown type raises
   * AttributeError: the loop reads `block.uri`, which was never set.
   */
  function FormatForLlm(r: ToolResult, dumps: Json -> string): (s: Result<string>)
    ensures s.Failure? <==> exists i :: 0 <= i < |r.blocks| && !Renderable(r.blocks[i])
    ensures s.Failure? ==> s.error.AttributeError?
    ensures s.Success? ==> Text.IsPrefix(s.value, LlmBody(r.blocks))
  {
    if !AllRenderable(r.blocks) then
      Failure(AttributeError("'EmbeddedResourceBlock' object has no attribute 'uri'"))
    else
      var body := LlmBody(r.blocks);
      Success(if Truthy(r.structured) then body + StructuredSection("Structured Data", r.structured, dumps) else body)
  }

  /** A block with every binary payload blanked: what may influence the LLM string. */
  function Erase(b: Block): Block {
    match b
    case TextBlock(_, _, _) => b
    case ImageBlock(_, mime, ann, meta) => ImageBlock("", mime, ann, meta)
    case AudioBlock(_, mime, ann, meta) => AudioBlock("", mime, ann, meta)
    case ResourceBlock(_, kind, ann, meta) =>
      ResourceBlock(Null, if kind.BlobResource? then BlobResource(kind.uri, "", kind.mimeType) else kind, ann, meta)
  }

  /**
   * Non-interference: two results that differ only in image/audio `data`, blob payloads
   * and raw resource dictionaries render to the same LLM string, or both raise.
   */
  lemma FormatForLlmIgnoresPayloads(r1: ToolResult, r2: ToolResult, dumps: Json -> string)
    requires |r1.blocks| == |r2.blocks|
    requires forall i :: 0 <= i < |r1.blocks| ==> Erase(r1.blocks[i]) == Erase(r2.blocks[i])
    requires r1.structured == r2.structured
    ensures FormatForLlm(r1, dumps) == FormatForLlm(r2, dumps)
  {
    forall i | 0 <= i < |r1.blocks| ensures Renderable(r1.blocks[i]) == Renderable(r2.blocks[i]) {
      assert Erase(r1.blocks[i]) == Erase(r2.blocks[i]);
    }
    if AllRenderable(r1.blocks) {
      var p1, p2 := LlmParts(r1.blocks), LlmParts(r2.blocks);
      forall i | 0 <= i < |p1| ensures p1[i] == p2[i] {
        var b1, b2 := r1.blocks[i], r2.blocks[i];
        assert Erase(b1) == Erase(b2);
        assert KindOf(b1) == KindOf(Erase(b1));
      }
      assert p1 == p2;
    } else {
      var i :| 0 <= i < |r1.blocks| && !Renderable(r1.blocks[i]);
      assert !Renderable(r2.blocks[i]);
    }
  }

  /** The "[Structured Data]" section is appended exactly when the structured content is truthy. */
  lemma FormatForLlmStructured(r: ToolResult, dumps: Json -> string)
    requires AllRenderable(r.blocks)
    ensures FormatForLlm(r, dumps).Success?
    ensures FormatForLlm(r, dumps).value == LlmBody(r.blocks) <==> !Truthy(r.structured)
    ensures Truthy(r.structured) ==>
              FormatForLlm(r, dumps).value == LlmBody(r.blocks) + StructuredSection("Structured Data", r.structured, dumps)
  {
  }
}
