/**
 * `client_enhanced.py`: `call_tool` that parses the dumped result with the content
 * parser, `call_tool_simple`'s dictionary shape, the callback wrapper, and the
 * backward-compatible `MCPClient.call_tool`. The session's `call_tool` is an oracle
 * that answers with the result's `model_dump(mode="json")`.
 */
module ClientEnhanced {
  import opened Wrappers
  import opened Json
  import Progress
  import opened ContentParser
  import opened ClientCore

  /** What `session.call_tool` does: return a dumped result (None for no result) or raise. */
  datatype Reply = Returned(dump: Option<Dict>) | SessionRaised(message: string)

  type Session = (string, Dict) -> Reply

  /** A user progress callback; it may raise. */
  type Callback = Dict -> Result<()>

  /** One run of a wrapped callback: what it returns to its caller, and the exception it logged. */
  datatype CallbackRun = CallbackRun(outcome: Result<()>, logged: Option<Error>)

  /**
   * `wrapped_callback`: runs the user's callback on the progress data; whatever that
   * raises is logged and swallowed, so the wrapper itself never raises.
   */
  function WrapCallback(original: Callback): (w: Dict -> CallbackRun)
    ensures forall d :: w(d).outcome == Success(())
    ensures forall d :: w(d).logged.Some? <==> original(d).Failure?
    ensures forall d :: original(d).Failure? ==> w(d).logged == Some(original(d).error)
  {
    (d: Dict) => CallbackRun(Success(()), if original(d).Failure? then Some(original(d).error) else None)
  }

  /**
   * Building `call_args`: a copy of `function_args` whose `_meta` is REPLACED by a
   * dictionary holding only the token; no `_meta` is added without a token.
   */
  function BuildArgs(args: Dict, token: Option<Token>): (sent: Dict)
    ensures token.None? ==> sent == args
    ensures token.Some? ==> Get(sent, "_meta", Null) == Obj([("progressToken", Str(token.value))])
    ensures forall k :: HasKey(sent, k) <==> HasKey(args, k) || (k == "_meta" && token.Some?)
  {
    if token.None? then args else Set(args, "_meta", Obj([("progressToken", Str(token.value))]))
  }

  /** Every argument other than `_meta` reaches the session unchanged. */
  lemma BuildArgsKeepsOthers(args: Dict, token: Option<Token>, k: string, dflt: Json)
    requires k != "_meta"
    ensures Get(BuildArgs(args, token), k, dflt) == Get(args, k, dflt)
  {
    if token.Some? {
      GetSetOther(args, "_meta", Obj([("progressToken", Str(token.value))]), k, dflt);
    }
  }

  /** Lines 169-185: the session's answer, checked for None, parsed, and checked for `isError`. */
  function Interpret(reply: Reply): (r: Result<ToolResult>)
    ensures reply.SessionRaised? ==> r == Failure(Raised(reply.message))
    ensures reply == Returned(None) ==> r == Failure(NoResult)
    ensures reply.Returned? && reply.dump.Some? ==>
              var parsed := ParseToolResult(reply.dump.value);
              && (parsed.Failure? ==> r == Failure(parsed.error))
              && (parsed.Success? && Truthy(parsed.value.isError) ==>
                    r == Failure(Exception("Tool error: " + GetTextContent(parsed.value))))
              && (parsed.Success? && !Truthy(parsed.value.isError) ==> r == parsed)
  {
    match reply
    case SessionRaised(m) => Failure(Raised(m))
    case Returned(None) => Failure(NoResult)
    case Returned(Some(d)) =>
      var parsed :- ParseToolResult(d);
      if Truthy(parsed.isError) then Failure(Exception("Tool error: " + GetTextContent(parsed)))
      else Success(parsed)
  }

  /**
   * `EnhancedMCPClient.call_tool`: a tracker is registered exactly when a callback is
   * given, and the whole call after registration sits inside the `try ... finally`, so
   * the token is removed on every exit. The caller's arguments are never modified.
   */
  function CallTool(st: ClientState, name: string, args: Dict, hasCallback: bool, token: Token,
                    session: Session): (o: CallOutcome<ToolResult>)
    ensures !st.connected ==> o.result == Failure(NotConnected) && o.after == st && o.sent.None?
    ensures st.connected ==>
              && o.during == Registered(st.trackers, hasCallback, token)
              && o.sent == Some(BuildArgs(args, if hasCallback then Some(token) else None))
              && o.result == Interpret(session(name, o.sent.value))
              && o.after == st.(trackers := CleanedUp(o.during, hasCallback, token))
    ensures o.callerArgs == args
    ensures o.result.Success? ==> !Truthy(o.result.value.isError)
  {
    if !st.connected then CallOutcome(Failure(NotConnected), None, st.trackers, args, st)
    else
      var during := Registered(st.trackers, hasCallback, token);
      var sent := BuildArgs(args, if hasCallback then Some(token) else None);
      CallOutcome(Interpret(session(name, sent)), Some(sent), during, args,
                  st.(trackers := CleanedUp(during, hasCallback, token)))
  }

  /** With a fresh token, a call leaves the tracker map exactly as it found it. */
  lemma CallToolRestoresTrackers(st: ClientState, name: string, args: Dict, hasCallback: bool, token: Token,
                                 session: Session)
    requires token !in st.trackers
    ensures CallTool(st, name, args, hasCallback, token, session).after == st
  {
    RegisterThenCleanUp(st.trackers, hasCallback, token);
  }

  // ---------------------------------------------------------------------------
  // call_tool_simple
  // ---------------------------------------------------------------------------

  /** One `{"mime_type": ..., "data": ...}` entry. */
  datatype MediaRef = MediaRef(mimeType: string, data: string)

  /** The dictionary `call_tool_simple` returns; "images"/"audio" are None when the key is absent. */
  datatype SimpleResult = SimpleResult(text: string, structured: Json, isError: Json,
                                       images: Option<seq<MediaRef>>, audio: Option<seq<MediaRef>>)

  /** There are blocks of a kind exactly when some block has that kind. */
  lemma BlocksOfKindNonEmpty(bs: seq<Block>, k: Kind)
    ensures |BlocksOfKind(bs, k)| > 0 <==> exists i :: 0 <= i < |bs| && KindOf(bs[i]) == k
  {
    var r := BlocksOfKind(bs, k);
    if |r| > 0 {
      assert r[0] in r;
      var i :| 0 <= i < |bs| && bs[i] == r[0];
    }
  }

  /** The image blocks are image blocks, and the audio blocks audio blocks. */
  lemma MediaRefsOf(bs: seq<Block>)
    ensures forall i :: 0 <= i < |BlocksOfKind(bs, KImage)| ==> BlocksOfKind(bs, KImage)[i].ImageBlock?
    ensures forall i :: 0 <= i < |BlocksOfKind(bs, KAudio)| ==> BlocksOfKind(bs, KAudio)[i].AudioBlock?
  {
    var im, au := BlocksOfKind(bs, KImage), BlocksOfKind(bs, KAudio);
    assert forall i :: 0 <= i < |im| ==> im[i] in im;
    assert forall i :: 0 <= i < |au| ==> au[i] in au;
  }

  function MediaRefs(bs: seq<Block>): (r: seq<MediaRef>)
    requires forall i :: 0 <= i < |bs| ==> bs[i].ImageBlock? || bs[i].AudioBlock?
    ensures |r| == |bs|
    ensures forall i :: 0 <= i < |bs| ==> r[i] == MediaRef(bs[i].mimeType, bs[i].data)
  {
    seq(|bs|, i requires 0 <= i < |bs| => MediaRef(bs[i].mimeType, bs[i].data))
  }

  /**
   * The "images" or "audio" list: absent when there is no block of that kind, otherwise
   * one reference per such block, in block order.
   */
  function MediaList(bs: seq<Block>, k: Kind): (m: Option<seq<MediaRef>>)
    requires k == KImage || k == KAudio
    ensures m.Some? <==> exists i :: 0 <= i < |bs| && KindOf(bs[i]) == k
    ensures m.Some? ==>
              var blocks := BlocksOfKind(bs, k);
              |m.value| == |blocks| &&
              forall i :: 0 <= i < |blocks| ==>
                (blocks[i].ImageBlock? || blocks[i].AudioBlock?) &&
                m.value[i] == MediaRef(blocks[i].mimeType, blocks[i].data)
  {
    var blocks := BlocksOfKind(bs, k);
    BlocksOfKindNonEmpty(bs, k);
    MediaRefsOf(bs);
    if |blocks| > 0 then Some(MediaRefs(blocks)) else None
  }

  /**
   * The simple dictionary of a parsed result: text, structured content and error flag,
   * plus an "images" list exactly when there are image blocks and an "audio" list
   * exactly when there are audio blocks, each in block order.
   */
  function Simplify(r: ToolResult): (s: SimpleResult)
    ensures s.text == GetTextContent(r) && s.structured == r.structured && s.isError == r.isError
    ensures s.images == MediaList(r.blocks, KImage) && s.audio == MediaList(r.blocks, KAudio)
  {
    SimpleResult(GetTextContent(r), r.structured, r.isError, MediaList(r.blocks, KImage), MediaList(r.blocks, KAudio))
  }

  /**
   * Which class `self` is: `call_tool_simple` calls `self.call_tool`, which Python
   * resolves on the instance's class.
   */
  datatype Receiver = EnhancedInstance | CompatInstance

  function Lift<T, U>(o: CallOutcome<T>, result: Result<U>): CallOutcome<U> {
    CallOutcome(result, o.sent, o.during, o.callerArgs, o.after)
  }

  /**
   * `call_tool_simple` on an instance of class `self`, with `depth` Python stack frames
   * to spare. A successful result is simplified; an exception propagates.
   */
  function CallToolSimple(self: Receiver, depth: nat, st: ClientState, name: string, args: Dict, token: Token,
                          session: Session): (o: CallOutcome<SimpleResult>)
    ensures var inner := DispatchCallTool(self, depth, st, name, args, token, session);
            && (o.result.Success? <==> inner.result.Success?)
            && (o.result.Success? ==> o.result.value == Simplify(inner.result.value))
            && (o.result.Failure? ==> o.result.error == inner.result.error)
            && o.sent == inner.sent && o.after == inner.after
    decreases depth, 1
  {
    var inner := DispatchCallTool(self, depth, st, name, args, token, session);
    match inner.result
    case Failure(e) => Lift(inner, Failure(e))
    case Success(r) => Lift(inner, Success(Simplify(r)))
  }

  /**
   * `self.call_tool(name, args)` inside `call_tool_simple`. On the compatible class it
   * re-enters `MCPClient.call_tool`, which calls `call_tool_simple` again; with no frame
   * left Python raises RecursionError. (Were a dictionary ever returned, the next line's
   * `get_text_content()` would raise AttributeError.)
   */
  function DispatchCallTool(self: Receiver, depth: nat, st: ClientState, name: string, args: Dict, token: Token,
                            session: Session): (o: CallOutcome<ToolResult>)
    decreases depth, 0
  {
    match self
    case EnhancedInstance => CallTool(st, name, args, false, token, session)
    case CompatInstance =>
      if depth == 0 then CallOutcome(Failure(RecursionError), None, st.trackers, args, st)
      else
        var inner := CompatCallTool(depth - 1, st, name, args, token, session);
        match inner.result
        case Failure(e) => Lift(inner, Failure(e))
        case Success(_) => Lift(inner, Failure(AttributeError("'dict' object has no attribute 'get_text_content'")))
  }

  /** `MCPClient.call_tool` as written: `return await self.call_tool_simple(...)`. */
  function CompatCallTool(depth: nat, st: ClientState, name: string, args: Dict, token: Token,
                          session: Session): (o: CallOutcome<SimpleResult>)
    decreases depth, 2
  {
    CallToolSimple(CompatInstance, depth, st, name, args, token, session)
  }

  /**
   * The compatible client's `call_tool` never reaches the session: whatever the stack
   * depth, it ends in RecursionError with the client state unchanged.
   */
  lemma {:induction false} CompatCallToolRecurses(depth: nat, st: ClientState, name: string, args: Dict,
                                                  token: Token, session: Session)
    ensures var o := CompatCallTool(depth, st, name, args, token, session);
            o.result == Failure(RecursionError) && o.sent.None? && o.after == st
    decreases depth
  {
    var dispatched := DispatchCallTool(CompatInstance, depth, st, name, args, token, session);
    if depth > 0 {
      CompatCallToolRecurses(depth - 1, st, name, args, token, session);
      var inner := CompatCallTool(depth - 1, st, name, args, token, session);
      assert dispatched == Lift(inner, Failure(RecursionError));
    } else {
      assert dispatched == CallOutcome(Failure(RecursionError), None, st.trackers, args, st);
    }
    assert CompatCallTool(depth, st, name, args, token, session) == Lift(dispatched, Failure(RecursionError));
  }

  /**
   * `MCPClient.call_tool` as evidently intended: `call_tool_simple` running the enhanced
   * `call_tool` (`EnhancedMCPClient.call_tool(self, ...)`), with no callback.
   */
  function CompatCallToolFixed(st: ClientState, name: string, args: Dict, token: Token, session: Session)
    : (o: CallOutcome<SimpleResult>)
    ensures o.after == st && o.callerArgs == args
    ensures st.connected ==> o.sent == Some(args)
    ensures o.result.Success? <==> CallTool(st, name, args, false, token, session).result.Success?
    ensures o.result.Success? ==>
              && o.result.value == Simplify(CallTool(st, name, args, false, token, session).result.value)
              && !Truthy(o.result.value.isError)
    ensures o.result.Failure? ==> o.result.error == CallTool(st, name, args, false, token, session).result.error
  {
    CallToolSimple(EnhancedInstance, 0, st, name, args, token, session)
  }

  /**
   * The corrected client does answer: a connected session returning a dump whose
   * content parses and is not an error gives the simplified parsed result.
   */
  lemma CompatCallToolFixedAnswers(st: ClientState, name: string, args: Dict, token: Token, session: Session)
    requires st.connected
    requires session(name, args).Returned? && session(name, args).dump.Some?
    requires ParseToolResult(session(name, args).dump.value).Success?
    requires !Truthy(ParseToolResult(session(name, args).dump.value).value.isError)
    ensures CompatCallToolFixed(st, name, args, token, session).result ==
            Success(Simplify(ParseToolResult(session(name, args).dump.value).value))
  {
  }
}
