/**
 * `client_v2.py`: `call_tool` of the client over the SDK's native result type, with
 * its tracker registration, `_meta.progressToken` injection and error raising, and
 * the backward-compatible `MCPClient.call_tool`. The session's `call_tool` is an oracle.
 */
module ClientV2 {
  import opened Wrappers
  import opened Json
  import Progress
  import ContentUtils
  import opened ClientCore

  /** What `session.call_tool` does: return a result (possibly None) or raise. */
  datatype Reply = Returned(result: Option<ContentUtils.CallToolResult>) | SessionRaised(message: string)

  /** The session, as a function of the tool name and the arguments it is sent. */
  type Session = (string, Dict) -> Reply

  /** Python's message for `v["progressToken"] = ...` on a non-dictionary `v`. */
  function ItemAssignmentError(v: Json): (e: Error)
    requires !v.Obj?
    ensures e.TypeError?
  {
    match v
    case Arr(_) => TypeError("list indices must be integers or slices, not str")
    case Str(_) => TypeError("'str' object does not support item assignment")
    case Num(_) => TypeError("'int' object does not support item assignment")
    case Bool(_) => TypeError("'bool' object does not support item assignment")
    case Null => TypeError("'NoneType' object does not support item assignment")
  }

  /** `_meta` with the token set in it (an existing `_meta` dictionary keeps its other keys). */
  function WithToken(meta: Dict, token: Token): (m: Json)
    ensures m.Obj? && Get(m.fields, "progressToken", Null) == Str(token)
    ensures forall k :: HasKey(m.fields, k) <==> HasKey(meta, k) || k == "progressToken"
  {
    Obj(Set(meta, "progressToken", Str(token)))
  }

  /**
   * Building `call_args` as written: a SHALLOW copy of `function_args`, then `_meta`
   * created if absent and `progressToken` set inside it. Returns the sent arguments and
   * the caller's arguments afterwards, which share an existing `_meta` dictionary with
   * the copy; a `_meta` that is not a dictionary raises TypeError.
   */
  function BuildArgs(args: Dict, token: Option<Token>): (r: Result<(Dict, Dict)>)
    ensures token.None? ==> r == Success((args, args))
    ensures r.Failure? <==> token.Some? && HasKey(args, "_meta") && !Get(args, "_meta", Null).Obj?
    ensures r.Failure? ==> r.error.TypeError?
    ensures r.Success? && token.Some? ==>
              && Get(args, "_meta", Obj([])).Obj?
              && Get(r.value.0, "_meta", Null) == WithToken(Get(args, "_meta", Obj([])).fields, token.value)
              && (forall k :: HasKey(r.value.0, k) <==> HasKey(args, k) || k == "_meta")
    ensures r.Success? && token.Some? && HasKey(args, "_meta") ==> r.value.1 == r.value.0
    ensures r.Success? && !HasKey(args, "_meta") ==> r.value.1 == args
  {
    if token.None? then Success((args, args))
    else if !HasKey(args, "_meta") then
      Success((Set(args, "_meta", WithToken([], token.value)), args))
    else
      var meta := Get(args, "_meta", Null);
      GetPresent(args, "_meta", Null, Obj([]));
      if meta.Obj? then
        var sent := Set(args, "_meta", WithToken(meta.fields, token.value));
        Success((sent, sent))
      else
        Failure(ItemAssignmentError(meta))
  }

  /** Every argument other than `_meta` is sent unchanged, and stays unchanged for the caller. */
  lemma BuildArgsKeepsOthers(args: Dict, token: Option<Token>, k: string, dflt: Json)
    requires k != "_meta"
    ensures var built := BuildArgs(args, token);
            built.Success? ==> Get(built.value.0, k, dflt) == Get(args, k, dflt) && Get(built.value.1, k, dflt) == Get(args, k, dflt)
  {
    if token.Some? {
      if !HasKey(args, "_meta") {
        GetSetOther(args, "_meta", WithToken([], token.value), k, dflt);
      } else if Get(args, "_meta", Null).Obj? {
        GetSetOther(args, "_meta", WithToken(Get(args, "_meta", Null).fields, token.value), k, dflt);
      }
    }
  }

  /**
   * Building `call_args` as evidently intended: the same arguments are sent, but the
   * `_meta` dictionary is copied too, so the caller's arguments never change.
   */
  function BuildArgsFixed(args: Dict, token: Option<Token>): (r: Result<(Dict, Dict)>)
    ensures r.Success? ==> r.value.1 == args
    ensures r.Failure? <==> BuildArgs(args, token).Failure?
    ensures r.Success? ==> r.value.0 == BuildArgs(args, token).value.0
    ensures r.Failure? ==> r.error == BuildArgs(args, token).error
  {
    var built :- BuildArgs(args, token);
    Success((built.0, args))
  }

  /** Lines 188-203: the session's answer, checked for None and for `isError`. */
  function Interpret(reply: Reply): (r: Result<ContentUtils.CallToolResult>)
    ensures r.Success? <==> reply.Returned? && reply.result.Some? && !reply.result.value.isError
    ensures reply.SessionRaised? ==> r == Failure(Raised(reply.message))
    ensures reply == Returned(None) ==> r == Failure(NoResult)
    ensures reply.Returned? && reply.result.Some? && reply.result.value.isError ==>
              r == Failure(Exception("Tool error: " + ContentUtils.GetTextContent(reply.result.value)))
    ensures r.Success? ==> r.value == reply.result.value
  {
    match reply
    case SessionRaised(m) => Failure(Raised(m))
    case Returned(None) => Failure(NoResult)
    case Returned(Some(res)) =>
      if res.isError then Failure(Exception("Tool error: " + ContentUtils.GetTextContent(res)))
      else Success(res)
  }

  /**
   * `EnhancedMCPClient.call_tool` as written. The tracker is registered before the
   * arguments are built, but only the session call is inside the `try ... finally`, so
   * a TypeError from the argument building leaves the tracker registered.
   */
  function CallTool(st: ClientState, name: string, args: Dict, hasCallback: bool, token: Token,
                    session: Session): (o: CallOutcome<ContentUtils.CallToolResult>)
    ensures !st.connected ==> o.result == Failure(NotConnected) && o.after == st && o.sent.None?
    ensures st.connected ==> o.during == Registered(st.trackers, hasCallback, token)
    ensures o.sent.Some? ==>
              && o.result == Interpret(session(name, o.sent.value))
              && o.after == st.(trackers := CleanedUp(o.during, hasCallback, token))
    ensures st.connected && o.sent.None? ==>
              o.result.Failure? && o.result.error.TypeError? && o.after == st.(trackers := o.during)
    ensures st.connected && !hasCallback ==> o.sent == Some(args)
    ensures st.connected ==>
              var built := BuildArgs(args, if hasCallback then Some(token) else None);
              && (o.sent.None? <==> built.Failure?)
              && (built.Success? ==> o.sent == Some(built.value.0) && o.callerArgs == built.value.1)
    ensures o.after.connected == st.connected
  {
    if !st.connected then CallOutcome(Failure(NotConnected), None, st.trackers, args, st)
    else
      var during := Registered(st.trackers, hasCallback, token);
      match BuildArgs(args, if hasCallback then Some(token) else None)
      case Failure(e) => CallOutcome(Failure(e), None, during, args, st.(trackers := during))
      case Success(built) =>
        CallOutcome(Interpret(session(name, built.0)), Some(built.0), during, built.1,
                    st.(trackers := CleanedUp(during, hasCallback, token)))
  }

  /**
   * `call_tool` as evidently intended: the arguments are built inside the `try`, so the
   * token is removed on every exit, and the caller's `_meta` is not touched.
   */
  function CallToolFixed(st: ClientState, name: string, args: Dict, hasCallback: bool, token: Token,
                         session: Session): (o: CallOutcome<ContentUtils.CallToolResult>)
    ensures !st.connected ==> o.result == Failure(NotConnected) && o.after == st
    ensures st.connected ==> o.during == Registered(st.trackers, hasCallback, token)
    ensures st.connected ==> o.after == st.(trackers := CleanedUp(o.during, hasCallback, token))
    ensures o.callerArgs == args
    ensures o.sent.Some? ==> o.result == Interpret(session(name, o.sent.value))
    ensures st.connected ==>
              var built := BuildArgs(args, if hasCallback then Some(token) else None);
              && (o.sent.None? <==> built.Failure?)
              && (built.Success? ==> o.sent == Some(built.value.0))
  {
    if !st.connected then CallOutcome(Failure(NotConnected), None, st.trackers, args, st)
    else
      var during := Registered(st.trackers, hasCallback, token);
      var after := st.(trackers := CleanedUp(during, hasCallback, token));
      match BuildArgsFixed(args, if hasCallback then Some(token) else None)
      case Failure(e) => CallOutcome(Failure(e), None, during, args, after)
      case Success(built) => CallOutcome(Interpret(session(name, built.0)), Some(built.0), during, args, after)
  }

  /** With a fresh token, the corrected call leaves the tracker map exactly as it found it. */
  lemma CallToolFixedRestoresTrackers(st: ClientState, name: string, args: Dict, hasCallback: bool, token: Token,
                                      session: Session)
    requires token !in st.trackers
    ensures CallToolFixed(st, name, args, hasCallback, token, session).after == st
  {
    RegisterThenCleanUp(st.trackers, hasCallback, token);
  }

  /** Whenever the written call reaches the session, it sends what the corrected call sends. */
  lemma CallToolFixedAgrees(st: ClientState, name: string, args: Dict, hasCallback: bool, token: Token,
                            session: Session)
    ensures var o := CallTool(st, name, args, hasCallback, token, session);
            var f := CallToolFixed(st, name, args, hasCallback, token, session);
            o.sent == f.sent && o.result == f.result && o.during == f.during
  {
  }

  /**
   * The leak: a `_meta` of None with a callback raises TypeError, and the tracker
   * registered for the call is still in the map afterwards.
   */
  lemma TrackerLeaksOnBadMeta(token: Token, session: Session)
    ensures var o := CallTool(ClientState(true, map[]), "t", [("_meta", Null)], true, token, session);
            && o.result == Failure(TypeError("'NoneType' object does not support item assignment"))
            && o.after.trackers == map[token := Progress.NewTracker(token)]
            && o.after.trackers != map[]
  {
    var args: Dict := [("_meta", Null)];
    assert HasKey(args, "_meta") by { assert args[0].0 == "_meta"; }
  }

  /**
   * The aliasing: the caller's own `_meta` dictionary gains the progress token, although
   * `function_args.copy()` was meant to leave the caller's arguments alone.
   */
  lemma CallerMetaMutated(token: Token, session: Session)
    ensures var args: Dict := [("_meta", Obj([]))];
            var o := CallTool(ClientState(true, map[]), "t", args, true, token, session);
            && o.callerArgs == [("_meta", Obj([("progressToken", Str(token))]))]
            && o.callerArgs != args
  {
    var args: Dict := [("_meta", Obj([]))];
    assert HasKey(args, "_meta") by { assert args[0].0 == "_meta"; }
  }

  /**
   * `MCPClient.call_tool`: the call without a callback (so no tracker is ever
   * registered), returning the JSON dump of the result's content list.
   */
  function CompatCallTool(st: ClientState, name: string, args: Dict, token: Token, session: Session,
                          dumpContent: ContentUtils.Content -> Json): (o: CallOutcome<seq<Json>>)
    ensures o.after == st && o.during == st.trackers && o.callerArgs == args
    ensures st.connected ==> o.sent == Some(args)
    ensures o.result.Success? <==> CallTool(st, name, args, false, token, session).result.Success?
    ensures o.result.Success? ==>
              var res := CallTool(st, name, args, false, token, session).result.value;
              && |o.result.value| == |res.content|
              && forall i :: 0 <= i < |res.content| ==> o.result.value[i] == dumpContent(res.content[i])
    ensures o.result.Failure? ==> o.result.error == CallTool(st, name, args, false, token, session).result.error
  {
    var inner := CallTool(st, name, args, false, token, session);
    var result := match inner.result
      case Failure(e) => Failure(e)
      case Success(res) => Success(seq(|res.content|, i requires 0 <= i < |res.content| => dumpContent(res.content[i])));
    CallOutcome(result, inner.sent, inner.during, inner.callerArgs, inner.after)
  }
}
