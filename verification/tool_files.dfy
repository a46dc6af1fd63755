/**
 * What the two result processors (`middleware_integration.py` and `integration.py`)
 * share: the file entries they build, the outcome of processing one media item, and
 * the assembly of the `(text, files, embeds)` triple from per-item effects.
 */
module ToolFiles {
  import opened Wrappers
  import opened Json
  import Text
  import Seqs
  import ContentParser

  type Bytes = seq<bv8>

  /** The reply of an upload helper: a URL (possibly empty, meaning no file), or an exception. */
  datatype UploadReply = Uploaded(url: string) | UploadRaised(message: string)

  /** Where a file entry's content lives: an uploaded URL, or the base64 payload itself. */
  datatype FileLocation = Url(url: string) | InlineData(base64: string)

  /** One element of `tool_result_files`; `annotations` is None when the entry has no such key. */
  datatype FileEntry = FileEntry(kind: string, name: string, location: FileLocation, mimeType: string,
                                 annotations: Option<Json>)

  /** The `{"type": "files", "data": {...}}` event. */
  datatype FilesEvent = FilesEvent(files: seq<FileEntry>, tool: string)

  /** The returned triple, plus the files event the call emitted (if any). */
  datatype ToolOutput = ToolOutput(text: string, files: seq<FileEntry>, embeds: seq<string>,
                                   filesEvent: Option<FilesEvent>)

  /** What processing one media item did: produced an entry, produced nothing, or raised. */
  datatype StepOutcome = Produced(entry: FileEntry) | NothingProduced | StepRaised(message: string)

  /** A processing step at item index `i` (the index selects the fresh uuid it draws). */
  type Step<!C> = (nat, C) -> StepOutcome

  /** The outcome of a helper that returns an entry or None and never raises. */
  function AsOutcome(e: Option<FileEntry>): (r: StepOutcome)
    ensures !r.StepRaised?
    ensures r.Produced? <==> e.Some?
    ensures r.Produced? ==> r.entry == e.value
  {
    if e.Some? then Produced(e.value) else NothingProduced
  }

  /** What one item does to the loop's state: at most one text part and at most one file. */
  type Effect = (Option<string>, Option<FileEntry>)

  function PartsOf(effects: seq<Effect>): (r: seq<Option<string>>)
    ensures |r| == |effects| && forall i :: 0 <= i < |effects| ==> r[i] == effects[i].0
  {
    seq(|effects|, i requires 0 <= i < |effects| => effects[i].0)
  }

  function FilesOf(effects: seq<Effect>): (r: seq<Option<FileEntry>>)
    ensures |r| == |effects| && forall i :: 0 <= i < |effects| ==> r[i] == effects[i].1
  {
    seq(|effects|, i requires 0 <= i < |effects| => effects[i].1)
  }

  /**
   * The tail shared by both processors: join the parts with newlines, append a
   * "[Structured Data]" section when the structured content is truthy, emit one files
   * event when there are files and an emitter, and return no embeds.
   */
  function Assemble(tool: string, effects: seq<Effect>, structured: Json, hasEmitter: bool,
                    dumps: Json -> string): (out: ToolOutput)
    ensures out.files == Seqs.Somes(FilesOf(effects))
    ensures |out.files| <= |effects|
    ensures out.embeds == []
    ensures out.filesEvent.Some? <==> |out.files| > 0 && hasEmitter
    ensures out.filesEvent.Some? ==> out.filesEvent.value == FilesEvent(out.files, tool)
    ensures Text.IsPrefix(out.text, Text.Join(Seqs.Somes(PartsOf(effects)), "\n"))
    ensures Truthy(structured) <==> out.text != Text.Join(Seqs.Somes(PartsOf(effects)), "\n")
    ensures Truthy(structured) ==>
              out.text == Text.Join(Seqs.Somes(PartsOf(effects)), "\n") +
                          ContentParser.StructuredSection("Structured Data", structured, dumps)
  {
    var files := Seqs.Somes(FilesOf(effects));
    Seqs.SomesLength(FilesOf(effects));
    var body := Text.Join(Seqs.Somes(PartsOf(effects)), "\n");
    var text := if Truthy(structured) then body + ContentParser.StructuredSection("Structured Data", structured, dumps)
                else body;
    ToolOutput(text, files, [], if |files| > 0 && hasEmitter then Some(FilesEvent(files, tool)) else None)
  }
}
