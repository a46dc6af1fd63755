/**
 * What `client_v2.py` and `client_enhanced.py` share: the tool specs `list_tool_specs`
 * builds, the tracker map a client keeps, and the observable outcome of one call.
 * The MCP session is an oracle: its answers are parameters.
 */
module ClientCore {
  import opened Wrappers
  import opened Json
  import Progress

  /** A progress token, `str(uuid4())`: never empty, hence always truthy. */
  type Token = s: string | |s| > 0 witness "0"

  /** The client's state: whether a session exists, and the active trackers by token. */
  datatype ClientState = ClientState(connected: bool, trackers: map<string, Progress.Tracker>)

  /**
   * What one `call_tool` did: its result or exception, the arguments handed to the
   * session (None when the session was never called), the tracker map while the call
   * ran, the caller's `function_args` afterwards, and the client state afterwards.
   */
  datatype CallOutcome<+T> = CallOutcome(result: Result<T>, sent: Option<Dict>,
                                         during: map<string, Progress.Tracker>, callerArgs: Dict,
                                         after: ClientState)

  const NotConnected: Error := RuntimeError("MCP client is not connected.")
  const NoResult: Error := Exception("No result returned from MCP tool call.")

  /** The tracker map once a call has registered its token (only when a callback is given). */
  function Registered(trackers: map<string, Progress.Tracker>, hasCallback: bool, token: Token)
    : (r: map<string, Progress.Tracker>)
    ensures hasCallback ==> token in r && r[token] == Progress.NewTracker(token)
    ensures forall k :: k in r && k != token ==> k in trackers && r[k] == trackers[k]
    ensures forall k :: k in trackers && k != token ==> k in r && r[k] == trackers[k]
    ensures !hasCallback ==> r == trackers
  {
    if hasCallback then trackers[token := Progress.NewTracker(token)] else trackers
  }

  /** The `finally` clause: the call's own token leaves the map; nothing else changes. */
  function CleanedUp(trackers: map<string, Progress.Tracker>, hasCallback: bool, token: Token)
    : (r: map<string, Progress.Tracker>)
    ensures hasCallback ==> token !in r
    ensures forall k :: k in trackers && (k != token || !hasCallback) ==> k in r && r[k] == trackers[k]
    ensures forall k :: k in r ==> k in trackers
  {
    if hasCallback then trackers - {token} else trackers
  }

  /** Registering and then cleaning up leaves the map as it was, when the token was fresh. */
  lemma RegisterThenCleanUp(trackers: map<string, Progress.Tracker>, hasCallback: bool, token: Token)
    requires token !in trackers
    ensures CleanedUp(Registered(trackers, hasCallback, token), hasCallback, token) == trackers
  {
  }

  // ---------------------------------------------------------------------------
  // list_tool_specs
  // ---------------------------------------------------------------------------

  /** The SDK's `Tool`; an absent description or output schema is `Null`. */
  datatype Tool = Tool(name: string, description: Json, inputSchema: Json, outputSchema: Json)

  /**
   * The spec dictionary of one tool: name, description and input schema as
   * "parameters", plus "output_schema" exactly when the tool's output schema is truthy.
   */
  function ToolSpec(t: Tool): (d: Dict)
    ensures Get(d, "name", Null) == Str(t.name)
    ensures Get(d, "description", Null) == t.description
    ensures Get(d, "parameters", Null) == t.inputSchema
    ensures HasKey(d, "output_schema") <==> Truthy(t.outputSchema)
    ensures Truthy(t.outputSchema) ==> Get(d, "output_schema", Null) == t.outputSchema
    ensures forall k :: HasKey(d, k) ==> k == "name" || k == "description" || k == "parameters" || k == "output_schema"
  {
    var extra := if Truthy(t.outputSchema) then [("output_schema", t.outputSchema)] else [];
    SpecReads(t, extra);
    SpecKeys(t, extra);
    BaseSpec(t) + extra
  }

  /** The three entries every spec has, in the order the source writes them. */
  function BaseSpec(t: Tool): Dict {
    [("name", Str(t.name)), ("description", t.description), ("parameters", t.inputSchema)]
  }

  /** The three fixed entries read back unchanged, whether or not "output_schema" follows. */
  lemma SpecReads(t: Tool, extra: Dict)
    requires extra == [] || extra == [("output_schema", t.outputSchema)]
    ensures Get(BaseSpec(t) + extra, "name", Null) == Str(t.name)
    ensures Get(BaseSpec(t) + extra, "description", Null) == t.description
    ensures Get(BaseSpec(t) + extra, "parameters", Null) == t.inputSchema
  {
    var d := BaseSpec(t) + extra;
    assert "name"[0] == 'n' && "description"[0] == 'd' && "parameters"[0] == 'p';
    assert d[1..][1..] == [("parameters", t.inputSchema)] + extra;
    assert Get(d, "parameters", Null) == Get(d[1..], "parameters", Null) == Get(d[1..][1..], "parameters", Null);
  }

  /** The keys of a spec: the three fixed ones, and "output_schema" exactly when it was added. */
  lemma SpecKeys(t: Tool, extra: Dict)
    requires extra == [] || extra == [("output_schema", t.outputSchema)]
    ensures HasKey(BaseSpec(t) + extra, "output_schema") <==> extra != []
    ensures extra != [] ==> Get(BaseSpec(t) + extra, "output_schema", Null) == t.outputSchema
    ensures forall k :: HasKey(BaseSpec(t) + extra, k) ==>
              k == "name" || k == "description" || k == "parameters" || k == "output_schema"
  {
    var d := BaseSpec(t) + extra;
    assert "name"[0] == 'n' && "description"[0] == 'd' && "parameters"[0] == 'p' && "output_schema"[0] == 'o';
    assert d[1..][1..][1..] == extra;
    if extra != [] {
      assert d[3].0 == "output_schema";
    }
  }

  /**
   * `list_tool_specs`: RuntimeError without a session; otherwise one spec per listed
   * tool, in order. An exception from the session's `list_tools` propagates.
   */
  function ListToolSpecs(st: ClientState, listed: Result<seq<Tool>>): (r: Result<seq<Dict>>)
    ensures !st.connected ==> r == Failure(NotConnected)
    ensures st.connected && listed.Failure? ==> r == Failure(listed.error)
    ensures st.connected && listed.Success? ==>
              && r.Success?
              && |r.value| == |listed.value|
              && forall i :: 0 <= i < |r.value| ==>
                   && Get(r.value[i], "name", Null) == Str(listed.value[i].name)
                   && Get(r.value[i], "parameters", Null) == listed.value[i].inputSchema
                   && (HasKey(r.value[i], "output_schema") <==> Truthy(listed.value[i].outputSchema))
                   && r.value[i] == ToolSpec(listed.value[i])
  {
    if !st.connected then Failure(NotConnected)
    else
      var tools :- listed;
      Success(seq(|tools|, i requires 0 <= i < |tools| => ToolSpec(tools[i])))
  }
}
