/**
 * `content_utils.py`: classification, text extraction, audience filtering and
 * rendering over the MCP SDK's content objects, where a content item may also
 * arrive as a plain dictionary.
 */
module ContentUtils {
  import opened Wrappers
  import opened Json
  import Text
  import ContentParser
  import Seqs

  /** The SDK's `Annotations`, reduced to the audience it carries. */
  datatype Annotations = Annotations(audience: Option<seq<string>>)

  datatype ResourceContents =
    | TextResourceContents(uri: string, mimeType: Option<string>, text: string)
    | BlobResourceContents(uri: string, mimeType: Option<string>, blob: string)

  /** One content item: an SDK object, or a dictionary (`isinstance(content, dict)`). */
  datatype Content =
    | TextContent(text: string, annotations: Option<Annotations>)
    | ImageContent(data: string, mimeType: string, annotations: Option<Annotations>)
    | AudioContent(data: string, mimeType: string, annotations: Option<Annotations>)
    | EmbeddedResource(resource: ResourceContents, annotations: Option<Annotations>)
    | DictContent(fields: Dict)

  /** The SDK's `CallToolResult`; `structuredContent` is `Null` when absent. */
  datatype CallToolResult = CallToolResult(content: seq<Content>, structuredContent: Json, isError: bool)

  // ---------------------------------------------------------------------------
  // Classification
  // ---------------------------------------------------------------------------

  /** The `type` value of a dictionary item (`content.get("type")`). */
  function DictType(c: Content): Json
    requires c.DictContent?
  {
    Get(c.fields, "type", Null)
  }

  predicate IsTextContent(c: Content) {
    c.TextContent? || (c.DictContent? && DictType(c) == Str("text"))
  }

  predicate IsImageContent(c: Content) {
    c.ImageContent? || (c.DictContent? && DictType(c) == Str("image"))
  }

  predicate IsAudioContent(c: Content) {
    c.AudioContent? || (c.DictContent? && DictType(c) == Str("audio"))
  }

  predicate IsResourceContent(c: Content) {
    c.EmbeddedResource? || (c.DictContent? && DictType(c) == Str("resource"))
  }

  /**
   * The single class the four `is_*_content` predicates agree on: each predicate holds
   * exactly when this is its class, so at most one of them holds for any item.
   */
  function ContentClass(c: Content): (k: Option<ContentParser.Kind>)
    ensures IsTextContent(c) <==> k == Some(ContentParser.KText)
    ensures IsImageContent(c) <==> k == Some(ContentParser.KImage)
    ensures IsAudioContent(c) <==> k == Some(ContentParser.KAudio)
    ensures IsResourceContent(c) <==> k == Some(ContentParser.KResource)
  {
    match c
    case TextContent(_, _) => Some(ContentParser.KText)
    case ImageContent(_, _, _) => Some(ContentParser.KImage)
    case AudioContent(_, _, _) => Some(ContentParser.KAudio)
    case EmbeddedResource(_, _) => Some(ContentParser.KResource)
    case DictContent(d) => ContentParser.DeclaredKind(d)
  }

  /** `get_text_from_content`: the text of a text item, "" for every other item. */
  function GetTextFromContent(c: Content): (r: string)
    ensures !IsTextContent(c) ==> r == ""
    ensures c.TextContent? ==> r == c.text
    ensures c.DictContent? && IsTextContent(c) && !HasKey(c.fields, "text") ==> r == ""
    ensures c.DictContent? && IsTextContent(c) && Get(c.fields, "text", Str("")).Str? ==>
              r == Get(c.fields, "text", Str("")).s
  {
    if c.TextContent? then c.text
    else if c.DictContent? && DictType(c) == Str("text") then StrGet(c.fields, "text", Str(""))
    else ""
  }

  // ---------------------------------------------------------------------------
  // MIME types
  // ---------------------------------------------------------------------------

  /** The table of `get_file_extension_from_mime`: the image table and the audio table together. */
  const MimeExtensions: map<string, string> := ContentParser.ImageExtensions + ContentParser.AudioExtensions

  /** `mime.split("/")[-1]`: the part after the last slash (the whole string when there is none). */
  function LastSegment(m: string): (r: string)
    ensures '/' !in r
    ensures Text.IsSuffix(m, r)
    ensures |r| < |m| ==> m[|m| - |r| - 1] == '/'
    ensures '/' !in m ==> r == m
    ensures '/' in m ==> |r| < |m|
    decreases |m|
  {
    if |m| == 0 then ""
    else if m[|m| - 1] == '/' then ""
    else
      var m' := m[..|m| - 1];
      var front := LastSegment(m');
      LastSegmentSnoc(m', m[|m| - 1], front);
      assert m == m' + [m[|m| - 1]];
      LastSegmentWhole(m, front + [m[|m| - 1]]);
      front + [m[|m| - 1]]
  }

  /** One more non-slash character extends both the string and its last segment. */
  lemma LastSegmentSnoc(m': string, c: char, front: string)
    requires c != '/'
    requires '/' !in front && Text.IsSuffix(m', front) && (|front| < |m'| ==> m'[|m'| - |front| - 1] == '/')
    ensures var m := m' + [c];
            var r := front + [c];
            '/' !in r && Text.IsSuffix(m, r) && (|r| < |m| ==> m[|m| - |r| - 1] == '/')
  {
    var m := m' + [c];
    var r := front + [c];
    assert m[|m| - |r|..] == m'[|m'| - |front|..] + [c];
    if |r| < |m| {
      assert m[|m| - |r| - 1] == m'[|m'| - |front| - 1];
    }
  }

  /** A slash-free suffix preceded by a slash is the whole string exactly when there is no slash. */
  lemma LastSegmentWhole(m: string, r: string)
    requires '/' !in r && Text.IsSuffix(m, r) && (|r| < |m| ==> m[|m| - |r| - 1] == '/')
    ensures '/' !in m ==> r == m
    ensures '/' in m ==> |r| < |m|
  {
    if |r| == |m| {
      assert m[0..] == m;
    }
  }

  /**
   * `get_file_extension_from_mime`: the tabled extension; otherwise the text after the
   * last "/" (which contains no slash), or "bin" when there is no "/".
   */
  function FileExtensionFromMime(m: string): (r: string)
    ensures m in MimeExtensions ==> r == MimeExtensions[m]
    ensures m !in MimeExtensions && '/' !in m ==> r == "bin"
    ensures m !in MimeExtensions && '/' in m ==> '/' !in r && Text.IsSuffix(m, "/" + r)
  {
    if m in MimeExtensions then MimeExtensions[m]
    else if '/' in m then
      var r := LastSegment(m);
      assert m[|m| - |r| - 1..] == "/" + r;
      r
    else "bin"
  }

  /** For every type in the image or audio table, both modules name the same extension. */
  lemma ExtensionTablesAgree(m: string)
    ensures m in ContentParser.ImageExtensions ==>
              FileExtensionFromMime(m) == ContentParser.ImageExtensions[m]
    ensures m in ContentParser.AudioExtensions ==>
              FileExtensionFromMime(m) == ContentParser.AudioExtensions[m]
  {
  }

  // ---------------------------------------------------------------------------
  // Audience
  // ---------------------------------------------------------------------------

  function RolesJson(roles: seq<string>): (j: Json)
    ensures j.Arr? && |j.items| == |roles|
    ensures forall name :: Str(name) in j.items <==> name in roles
  {
    var j := Arr(seq(|roles|, i requires 0 <= i < |roles| => Str(roles[i])));
    assert forall name :: name in roles ==> Str(name) in j.items by {
      forall name | name in roles ensures Str(name) in j.items {
        var i :| 0 <= i < |roles| && roles[i] == name;
        assert j.items[i] == Str(name);
      }
    }
    j
  }

  /** The `annotations` entry of a dictionary item (`content.get("annotations", {})`). */
  function DictAnnotations(c: Content): Json
    requires c.DictContent?
  {
    Get(c.fields, "annotations", Obj([]))
  }

  /**
   * `get_audience_from_annotations`, reading an SDK object's audience as its
   * `audience` attribute. A dictionary item gives the "audience" entry of truthy
   * annotations, with None meaning no audience; truthy annotations that are not a
   * dictionary have no `.get`, so the lookup raises AttributeError.
   */
  function AudienceFromAnnotations(c: Content): (r: Result<Option<Json>>)
    ensures r.Success? && r.value.Some? ==> r.value.value != Null
    ensures r.Failure? <==> c.DictContent? && Truthy(DictAnnotations(c)) && !DictAnnotations(c).Obj?
    ensures c.DictContent? && !HasKey(c.fields, "annotations") ==> r == Success(None)
    ensures c.DictContent? && DictAnnotations(c).Obj? && Get(DictAnnotations(c).fields, "audience", Null) != Null ==>
              r == Success(Some(Get(DictAnnotations(c).fields, "audience", Null)))
    ensures c.DictContent? && DictAnnotations(c).Obj? && !HasKey(DictAnnotations(c).fields, "audience") ==>
              r == Success(None)
    ensures !c.DictContent? ==>
              && r.Success?
              && (r.value.Some? <==> c.annotations.Some? && c.annotations.value.audience.Some?)
              && (r.value.Some? ==>
                    forall role :: PyIn(role, r.value.value) == Success(role in c.annotations.value.audience.value))
  {
    match c
    case DictContent(d) =>
      var ann := Get(d, "annotations", Obj([]));
      if !Truthy(ann) then Success(None)
      else if !ann.Obj? then Failure(AttributeError("'" + TypeName(ann) + "' object has no attribute 'get'"))
      else
        var a := Get(ann.fields, "audience", Null);
        Success(if a == Null then None else Some(a))
    case _ =>
      if c.annotations.Some? && c.annotations.value.audience.Some? then
        Success(Some(RolesJson(c.annotations.value.audience.value)))
      else Success(None)
  }

  /**
   * `get_audience_from_annotations` as written: an annotated SDK object is asked for
   * `content.annotations.get("audience")`, but the SDK's `Annotations` is a pydantic
   * model without a `get` method (and always truthy), so this raises AttributeError.
   */
  function AudienceFromAnnotationsAsWritten(c: Content): (r: Result<Option<Json>>)
    ensures c.DictContent? || c.annotations.None? ==> r == AudienceFromAnnotations(c)
    ensures !c.DictContent? && c.annotations.Some? ==> r.Failure? && r.error.AttributeError?
  {
    if !c.DictContent? && c.annotations.Some? then
      Failure(AttributeError("'Annotations' object has no attribute 'get'"))
    else AudienceFromAnnotations(c)
  }

  /**
   * The written lookup fails on a text item addressed to the user alone, although its
   * audience is readable: the corrected lookup shows it to the user and hides it from
   * the assistant.
   */
  lemma AnnotatedSdkItemRaises(text: string)
    ensures var c := TextContent(text, Some(Annotations(Some(["user"]))));
            && AudienceFromAnnotationsAsWritten(c).Failure?
            && ShouldShowToUser(c) == Success(true)
            && ShouldShowToAssistant(c) == Success(false)
  {
    var c := TextContent(text, Some(Annotations(Some(["user"]))));
    assert "user" in ["user"];
    assert "assistant"[0] != "user"[0];
    assert "assistant" !in ["user"];
  }

  /**
   * Whether an item is shown to `role`: yes without an audience, otherwise exactly when
   * `role` is in the audience. An audience that is a boolean or a number makes `in`
   * raise TypeError, and a failing lookup propagates.
   */
  function ShownTo(role: string, c: Content): (r: Result<bool>)
    ensures AudienceFromAnnotations(c) == Success(None) ==> r == Success(true)
    ensures r.Failure? <==>
              AudienceFromAnnotations(c).Failure? ||
              (AudienceFromAnnotations(c).value.Some? &&
               (AudienceFromAnnotations(c).value.value.Bool? || AudienceFromAnnotations(c).value.value.Num?))
    ensures AudienceFromAnnotations(c).Failure? ==> r == Failure(AudienceFromAnnotations(c).error)
    ensures AudienceFromAnnotations(c).Success? && AudienceFromAnnotations(c).value.Some? &&
            AudienceFromAnnotations(c).value.value.Arr? ==>
              r == Success(Str(role) in AudienceFromAnnotations(c).value.value.items)
  {
    var a :- AudienceFromAnnotations(c);
    if a.None? then Success(true) else PyIn(role, a.value)
  }

  /** `should_show_to_user`. */
  function ShouldShowToUser(c: Content): Result<bool> {
    ShownTo("user", c)
  }

  /** `should_show_to_assistant`. */
  function ShouldShowToAssistant(c: Content): Result<bool> {
    ShownTo("assistant", c)
  }

  /** An SDK object never raises: it is shown to a role iff it has no audience or the audience lists the role. */
  lemma NativeVisibility(c: Content, role: string)
    requires !c.DictContent?
    ensures ShownTo(role, c) ==
              Success(c.annotations.None? || c.annotations.value.audience.None? ||
                      role in c.annotations.value.audience.value)
  {
  }

  // ---------------------------------------------------------------------------
  // Folds over the content list
  // ---------------------------------------------------------------------------

  /** The parts a loop `for content in contents: parts.append(...)` collects, in order. */
  function Collect(cs: seq<Content>, piece: Content -> Option<string>): seq<string> {
    Seqs.Somes(Pieces(cs, piece))
  }

  function Pieces(cs: seq<Content>, piece: Content -> Option<string>): (r: seq<Option<string>>)
    ensures |r| == |cs| && forall i :: 0 <= i < |cs| ==> r[i] == piece(cs[i])
  {
    seq(|cs|, i requires 0 <= i < |cs| => piece(cs[i]))
  }

  /** An item whose piece is None can be dropped from anywhere without changing the parts. */
  lemma CollectSkip(a: seq<Content>, x: Content, b: seq<Content>, piece: Content -> Option<string>)
    requires piece(x).None?
    ensures Collect(a + [x] + b, piece) == Collect(a + b, piece)
  {
    assert Pieces(a + [x] + b, piece) == Pieces(a, piece) + [None] + Pieces(b, piece);
    assert Pieces(a + b, piece) == Pieces(a, piece) + Pieces(b, piece);
    Seqs.SomesSkipNone(Pieces(a, piece), Pieces(b, piece));
  }

  /** The items satisfying `p`, in order (`[c for c in self.content if p(c)]`). */
  function Select(cs: seq<Content>, p: Content -> bool): (r: seq<Content>)
    ensures |r| <= |cs|
    ensures forall x :: x in r ==> x in cs && p(x)
    ensures forall i :: 0 <= i < |cs| && p(cs[i]) ==> cs[i] in r
    decreases |cs|
  {
    if |cs| == 0 then []
    else
      var last := cs[|cs| - 1];
      assert forall i :: 0 <= i < |cs| - 1 ==> cs[..|cs| - 1][i] == cs[i];
      Select(cs[..|cs| - 1], p) + (if p(last) then [last] else [])
  }

  /** Selecting from two lists laid end to end selects from each, keeping item order. */
  lemma {:induction false} SelectAppend(a: seq<Content>, b: seq<Content>, p: Content -> bool)
    ensures Select(a + b, p) == Select(a, p) + Select(b, p)
    decreases |b|
  {
    if |b| == 0 {
      assert a + b == a;
    } else {
      var b', last := b[..|b| - 1], b[|b| - 1];
      var tail := if p(last) then [last] else [];
      assert (a + b)[..|a + b| - 1] == a + b';
      assert (a + b)[|a + b| - 1] == last;
      assert Select(a + b, p) == Select(a + b', p) + tail;
      assert Select(b, p) == Select(b', p) + tail;
      SelectAppend(a, b', p);
    }
  }

  /** One item is kept exactly when it satisfies the predicate. */
  lemma SelectSingle(x: Content, p: Content -> bool)
    ensures Select([x], p) == if p(x) then [x] else []
  {
    assert [x][..0] == [];
  }

  /** Each item satisfying the predicate is kept as often as it occurs, and no other item is kept. */
  lemma {:induction false} SelectCount(cs: seq<Content>, p: Content -> bool, x: Content)
    ensures multiset(Select(cs, p))[x] == if p(x) then multiset(cs)[x] else 0
    decreases |cs|
  {
    if |cs| > 0 {
      var front, last := cs[..|cs| - 1], cs[|cs| - 1];
      assert cs == front + [last];
      SelectCount(front, p, x);
      assert Select(cs, p) == Select(front, p) + (if p(last) then [last] else []);
    }
  }

  // ---------------------------------------------------------------------------
  // MCPToolResult
  // ---------------------------------------------------------------------------

  /** What one item adds to `get_text_content`: text items and SDK text resources. */
  function TextPiece(c: Content): Option<string> {
    if IsTextContent(c) then Some(GetTextFromContent(c))
    else if c.EmbeddedResource? && c.resource.TextResourceContents? then Some(c.resource.text)
    else None
  }

  function GetTextContent(r: CallToolResult): string {
    Text.Join(Collect(r.content, TextPiece), "\n")
  }

  function GetImageBlocks(r: CallToolResult): seq<Content> {
    Select(r.content, IsImageContent)
  }

  function GetAudioBlocks(r: CallToolResult): seq<Content> {
    Select(r.content, IsAudioContent)
  }

  function GetResourceBlocks(r: CallToolResult): seq<Content> {
    Select(r.content, IsResourceContent)
  }

  /** `has_media()`: some item is an image or an audio clip. */
  function HasMedia(r: CallToolResult): (h: bool)
    ensures h <==> exists i :: 0 <= i < |r.content| && (IsImageContent(r.content[i]) || IsAudioContent(r.content[i]))
  {
    var images := GetImageBlocks(r);
    var audio := GetAudioBlocks(r);
    if |images| > 0 then
      assert images[0] in images;
      true
    else if |audio| > 0 then
      assert audio[0] in audio;
      true
    else
      false
  }

  /** A media item adds no text and makes `has_media` hold, wherever it sits. */
  lemma MediaItemAddsNoText(a: seq<Content>, x: Content, b: seq<Content>, r: CallToolResult)
    requires IsImageContent(x) || IsAudioContent(x)
    ensures GetTextContent(r.(content := a + [x] + b)) == GetTextContent(r.(content := a + b))
    ensures HasMedia(r.(content := a + [x] + b))
  {
    var _ := ContentClass(x);
    CollectSkip(a, x, b, TextPiece);
    assert (a + [x] + b)[|a|] == x;
  }

  /** The mime type shown for a media item: the SDK field, or the dictionary's with a fallback. */
  function MediaMime(c: Content, fallback: string): string
    requires c.ImageContent? || c.AudioContent? || c.DictContent?
  {
    if c.DictContent? then StrGet(c.fields, "mimeType", Str(fallback)) else c.mimeType
  }

  /** What a visible item adds to `format_for_llm`; dictionary resources add nothing. */
  function LlmShown(c: Content): Option<string> {
    if IsTextContent(c) then Some(GetTextFromContent(c))
    else if IsImageContent(c) then Some("[Image: " + MediaMime(c, "image") + "]")
    else if IsAudioContent(c) then Some("[Audio: " + MediaMime(c, "audio") + "]")
    else if c.EmbeddedResource? then
      if c.resource.TextResourceContents? then Some("[Resource: " + c.resource.uri + "]\n" + c.resource.text)
      else Some("[Resource: " + c.resource.uri + "]")
    else None
  }

  /** One iteration of the `format_for_llm` loop: skip an item hidden from the assistant. */
  function LlmPiece(c: Content): (r: Result<Option<string>>)
    ensures r.Failure? <==> ShouldShowToAssistant(c).Failure?
    ensures r.Failure? ==> r.error == ShouldShowToAssistant(c).error
    ensures ShouldShowToAssistant(c) == Success(false) ==> r == Success(None)
    ensures ShouldShowToAssistant(c) == Success(true) ==> r == Success(LlmShown(c))
  {
    var show :- ShouldShowToAssistant(c);
    Success(if show then LlmShown(c) else None)
  }

  function LlmPieces(cs: seq<Content>): (r: seq<Result<Option<string>>>)
    ensures |r| == |cs| && forall i :: 0 <= i < |cs| ==> r[i] == LlmPiece(cs[i])
  {
    Seqs.Map(LlmPiece, cs)
  }

  /**
   * `format_for_llm(include_structured)`: the parts of the items shown to the assistant,
   * joined by newlines, then the structured section when requested and truthy. The
   * first item whose audience check raises aborts the call with that exception.
   */
  function FormatForLlm(r: CallToolResult, includeStructured: bool, dumps: Json -> string): (s: Result<string>)
    ensures s.Failure? <==> exists i :: 0 <= i < |r.content| && ShouldShowToAssistant(r.content[i]).Failure?
    ensures s.Failure? ==>
              exists i :: 0 <= i < |r.content| && ShouldShowToAssistant(r.content[i]) == Failure(s.error) &&
                forall j :: 0 <= j < i ==> ShouldShowToAssistant(r.content[j]).Success?
    ensures s.Success? ==> Seqs.Gather(LlmPieces(r.content)).Success?
    ensures s.Success? ==> Text.IsPrefix(s.value, Text.Join(Seqs.Gather(LlmPieces(r.content)).value, "\n"))
    ensures s.Success? ==>
              (s.value == Text.Join(Seqs.Gather(LlmPieces(r.content)).value, "\n") <==>
               !(includeStructured && Truthy(r.structuredContent)))
  {
    Seqs.GatherFailure(LlmPieces(r.content));
    var parts :- Seqs.Gather(LlmPieces(r.content));
    var body := Text.Join(parts, "\n");
    if includeStructured && Truthy(r.structuredContent) then
      Success(body + ContentParser.StructuredSection("Structured Data", r.structuredContent, dumps))
    else Success(body)
  }

  /** An item hidden from the assistant can sit anywhere without changing the LLM string. */
  lemma FormatForLlmOmitsHidden(a: seq<Content>, x: Content, b: seq<Content>, r: CallToolResult,
                                includeStructured: bool, dumps: Json -> string)
    requires ShouldShowToAssistant(x) == Success(false)
    ensures FormatForLlm(r.(content := a + [x] + b), includeStructured, dumps) ==
            FormatForLlm(r.(content := a + b), includeStructured, dumps)
  {
    var pa, pb := LlmPieces(a), LlmPieces(b);
    assert LlmPieces([x]) == [Success(None)];
    LlmPiecesAppend(a + [x], b);
    LlmPiecesAppend(a, [x]);
    LlmPiecesAppend(a, b);
    assert LlmPieces(a + [x] + b) == pa + [Success(None)] + pb;
    Seqs.GatherSkipNone(pa, pb);
  }

  lemma LlmPiecesAppend(a: seq<Content>, b: seq<Content>)
    ensures LlmPieces(a + b) == LlmPieces(a) + LlmPieces(b)
  {
    Seqs.MapAppend(LlmPiece, a, b);
  }

  /** A visible text item contributes exactly its text, at its position. */
  lemma FormatForLlmKeepsVisibleText(a: seq<Content>, x: Content, b: seq<Content>)
    requires x.TextContent? && ShouldShowToAssistant(x) == Success(true)
    requires Seqs.Gather(LlmPieces(a)).Success? && Seqs.Gather(LlmPieces(b)).Success?
    ensures Seqs.Gather(LlmPieces(a + [x] + b)) ==
            Success(Seqs.Gather(LlmPieces(a)).value + [x.text] + Seqs.Gather(LlmPieces(b)).value)
  {
    var pa, pb := LlmPieces(a), LlmPieces(b);
    assert LlmPieces([x]) == [Success(Some(x.text))];
    LlmPiecesAppend(a + [x], b);
    LlmPiecesAppend(a, [x]);
    assert LlmPieces(a + [x] + b) == pa + [Success(Some(x.text))] + pb;
    Seqs.GatherKeep(LlmPieces(a), x.text, LlmPieces(b));
  }

  /** An item with its binary payload blanked. */
  function EraseContent(c: Content): Content {
    match c
    case ImageContent(_, mime, ann) => ImageContent("", mime, ann)
    case AudioContent(_, mime, ann) => AudioContent("", mime, ann)
    case EmbeddedResource(res, ann) =>
      if res.BlobResourceContents? then EmbeddedResource(res.(blob := ""), ann) else c
    case DictContent(d) => if HasKey(d, "data") then DictContent(Set(d, "data", Str(""))) else c
    case _ => c
  }

  /** Blanking the `data` entry of a dictionary item leaves every other entry as it was. */
  lemma EraseKeepsGet(c: Content, k: string, dflt: Json)
    requires c.DictContent? && HasKey(c.fields, "data")
    requires k != "data"
    ensures EraseContent(c).DictContent? && Get(EraseContent(c).fields, k, dflt) == Get(c.fields, k, dflt)
  {
    assert EraseContent(c) == DictContent(Set(c.fields, "data", Str("")));
    GetSetOther(c.fields, "data", Str(""), k, dflt);
  }

  /** Blanking the `data` entry of a dictionary item leaves every field the renderers read. */
  lemma EraseDictKeepsReads(c: Content)
    requires c.DictContent? && HasKey(c.fields, "data")
    ensures var e := EraseContent(c);
            && DictType(e) == DictType(c)
            && AudienceFromAnnotations(e) == AudienceFromAnnotations(c)
            && GetTextFromContent(e) == GetTextFromContent(c)
            && MediaMime(e, "image") == MediaMime(c, "image")
            && MediaMime(e, "audio") == MediaMime(c, "audio")
  {
    var e := EraseContent(c);
    assert "type"[0] != "data"[0] && "text"[0] != "data"[0];
    EraseKeepsGet(c, "type", Null);
    assert DictType(e) == DictType(c);
    EraseKeepsGet(c, "annotations", Obj([]));
    assert AudienceFromAnnotations(e) == AudienceFromAnnotations(c);
    EraseKeepsGet(c, "text", Str(""));
    assert GetTextFromContent(e) == GetTextFromContent(c);
    EraseKeepsGet(c, "mimeType", Str("image"));
    EraseKeepsGet(c, "mimeType", Str("audio"));
  }

  /** The LLM string of every item is blind to image, audio and blob payloads. */
  lemma LlmPieceIgnoresPayload(c: Content)
    ensures LlmPiece(EraseContent(c)) == LlmPiece(c)
  {
    var e := EraseContent(c);
    if c.DictContent? && HasKey(c.fields, "data") {
      EraseDictKeepsReads(c);
      assert IsTextContent(e) == IsTextContent(c);
      assert IsImageContent(e) == IsImageContent(c);
      assert IsAudioContent(e) == IsAudioContent(c);
      assert ShouldShowToAssistant(e) == ShouldShowToAssistant(c);
    } else if !c.DictContent? {
      assert AudienceFromAnnotations(e) == AudienceFromAnnotations(c);
    }
  }

  /** What a visible item adds to `format_for_user`: text, "[Image]" or "[Audio]"; resources add nothing. */
  function UserShown(c: Content): Option<string> {
    if IsTextContent(c) then Some(GetTextFromContent(c))
    else if IsImageContent(c) then Some("[Image]")
    else if IsAudioContent(c) then Some("[Audio]")
    else None
  }

  /** One iteration of the `format_for_user` loop: skip an item hidden from the user. */
  function UserPiece(c: Content): (r: Result<Option<string>>)
    ensures r.Failure? <==> ShouldShowToUser(c).Failure?
    ensures r.Failure? ==> r.error == ShouldShowToUser(c).error
    ensures ShouldShowToUser(c) == Success(false) ==> r == Success(None)
    ensures ShouldShowToUser(c) == Success(true) ==> r == Success(UserShown(c))
  {
    var show :- ShouldShowToUser(c);
    Success(if show then UserShown(c) else None)
  }

  function UserPieces(cs: seq<Content>): (r: seq<Result<Option<string>>>)
    ensures |r| == |cs| && forall i :: 0 <= i < |cs| ==> r[i] == UserPiece(cs[i])
  {
    Seqs.Map(UserPiece, cs)
  }

  /** `format_for_user`: the user-visible parts joined by newlines; a raising audience check aborts it. */
  function FormatForUser(r: CallToolResult): (s: Result<string>)
    ensures s.Failure? <==> exists i :: 0 <= i < |r.content| && ShouldShowToUser(r.content[i]).Failure?
    ensures s.Success? ==>
              Seqs.Gather(UserPieces(r.content)).Success? &&
              s.value == Text.Join(Seqs.Gather(UserPieces(r.content)).value, "\n")
  {
    Seqs.GatherFailure(UserPieces(r.content));
    var parts :- Seqs.Gather(UserPieces(r.content));
    Success(Text.Join(parts, "\n"))
  }

  /** Items hidden from the user, and visible resources, never show in the user string. */
  lemma FormatForUserDrops(a: seq<Content>, x: Content, b: seq<Content>, r: CallToolResult)
    requires ShouldShowToUser(x) == Success(false) || (IsResourceContent(x) && ShouldShowToUser(x) == Success(true))
    ensures FormatForUser(r.(content := a + [x] + b)) == FormatForUser(r.(content := a + b))
  {
    var _ := ContentClass(x);
    var pa, pb := UserPieces(a), UserPieces(b);
    assert UserPieces([x]) == [Success(None)];
    UserPiecesAppend(a + [x], b);
    UserPiecesAppend(a, [x]);
    UserPiecesAppend(a, b);
    assert UserPieces(a + [x] + b) == pa + [Success(None)] + pb;
    Seqs.GatherSkipNone(pa, pb);
  }

  lemma UserPiecesAppend(a: seq<Content>, b: seq<Content>)
    ensures UserPieces(a + b) == UserPieces(a) + UserPieces(b)
  {
    Seqs.MapAppend(UserPiece, a, b);
  }

  /** A user-visible media item shows as a bare placeholder, never with its payload or mime type. */
  lemma UserPieceOfMedia(c: Content)
    requires ShouldShowToUser(c) == Success(true)
    ensures IsImageContent(c) ==> UserPiece(c) == Success(Some("[Image]"))
    ensures IsAudioContent(c) ==> UserPiece(c) == Success(Some("[Audio]"))
  {
    var _ := ContentClass(c);
  }

  // ---------------------------------------------------------------------------
  // Result factories
  // ---------------------------------------------------------------------------

  /** `create_text_result`: one text item. */
  function CreateTextResult(text: string, isError: bool): (r: CallToolResult)
    ensures GetTextContent(r) == text
    ensures !HasMedia(r) && r.isError == isError && r.structuredContent == Null
  {
    var r := CallToolResult([TextContent(text, None)], Null, isError);
    assert Pieces(r.content, TextPiece) == [Some(text)];
    Seqs.SomesSingle(Some(text));
    Text.JoinSingle(text, "\n");
    assert !IsImageContent(r.content[0]) && !IsAudioContent(r.content[0]);
    r
  }

  /** `create_image_result`: an optional description text item (when non-empty), then the image. */
  function CreateImageResult(data: string, mimeType: string, description: Option<string>): (r: CallToolResult)
    ensures HasMedia(r) && !r.isError
    ensures |r.content| == (if description.Some? && description.value != "" then 2 else 1)
    ensures r.content[|r.content| - 1] == ImageContent(data, mimeType, None)
    ensures GetTextContent(r) == if description.Some? && description.value != "" then description.value else ""
  {
    var image := ImageContent(data, mimeType, None);
    var described := description.Some? && description.value != "";
    var r := if described then CallToolResult([TextContent(description.value, None), image], Null, false)
             else CallToolResult([image], Null, false);
    assert IsImageContent(r.content[|r.content| - 1]);
    DescriptionIsTheText(r.content, image, described, description.GetOr(""));
    r
  }

  /** The text of a description-then-image list is the description; an image alone has no text. */
  lemma DescriptionIsTheText(cs: seq<Content>, image: Content, described: bool, d: string)
    requires image.ImageContent?
    requires described ==> cs == [TextContent(d, None), image]
    requires !described ==> cs == [image]
    ensures Text.Join(Collect(cs, TextPiece), "\n") == if described then d else ""
  {
    assert TextPiece(image) == None;
    Seqs.SomesSingle<string>(None);
    if described {
      assert Pieces(cs, TextPiece) == [Some(d)] + [None];
      Seqs.SomesAppend([Some(d)], [None]);
      Seqs.SomesSingle(Some(d));
      Text.JoinSingle(d, "\n");
    } else {
      assert Pieces(cs, TextPiece) == [None];
    }
  }
}
