/**
 * `ProgressTracker`, defined identically in `content_parser.py` and `content_utils.py`:
 * the latest progress, a total that persists when an update omits it, and the
 * history of every update. Python floats are modelled as reals.
 */
module Progress {
  import opened Wrappers
  import Json

  /** The dictionary `update()` returns and appends to the history. */
  datatype Update = Update(progress: real, total: real, percentage: real, message: string)

  datatype Tracker = Tracker(token: string, progress: real, total: real, message: string, updates: seq<Update>)

  /** A fresh tracker: nothing done out of a total of one, no history. */
  function NewTracker(token: string): (t: Tracker)
    ensures t.token == token && t.updates == []
    ensures t.progress == 0.0 && t.total == 1.0 && t.message == ""
    ensures !IsComplete(t) && GetPercentage(t) == 0.0
  {
    Tracker(token, 0.0, 1.0, "", [])
  }

  /** `progress / total * 100` when the total is positive, 0 otherwise. */
  function Percentage(progress: real, total: real): (p: real)
    ensures total <= 0.0 ==> p == 0.0
    ensures total > 0.0 ==> p * total == progress * 100.0
    ensures total > 0.0 && 0.0 <= progress <= total ==> 0.0 <= p <= 100.0
  {
    if total > 0.0 then
      FractionBounds(progress, total);
      progress / total * 100.0
    else 0.0
  }

  /** A quotient of a positive total: it scales back to the dividend, and lies in [0, 1] for a dividend in [0, total]. */
  lemma FractionBounds(progress: real, total: real)
    requires total > 0.0
    ensures progress / total * total == progress
    ensures 0.0 <= progress <= total ==> 0.0 <= progress / total <= 1.0
  {
    var q := progress / total;
    assert q * total == progress;
    assert (1.0 - q) * total == total - progress;
  }

  /** `get_percentage()`. */
  function GetPercentage(t: Tracker): real {
    Percentage(t.progress, t.total)
  }

  /** `is_complete()`. */
  predicate IsComplete(t: Tracker) {
    t.progress >= t.total
  }

  /**
   * `update(progress, total, message)`: records the new progress and message, keeps
   * the old total unless a new one is given, and appends exactly one history entry,
   * which is also returned.
   */
  function UpdateTracker(t: Tracker, progress: real, total: Option<real>, message: string): (r: (Tracker, Update))
    ensures r.0.token == t.token
    ensures r.0.progress == progress && r.0.message == message
    ensures total.None? ==> r.0.total == t.total
    ensures total.Some? ==> r.0.total == total.value
    ensures r.0.updates == t.updates + [r.1]
    ensures r.1.progress == progress && r.1.total == r.0.total && r.1.message == message
    ensures r.1.percentage == GetPercentage(r.0)
    ensures IsComplete(r.0) <==> progress >= r.0.total
  {
    var newTotal := if total.Some? then total.value else t.total;
    var u := Update(progress, newTotal, Percentage(progress, newTotal), message);
    (Tracker(t.token, progress, newTotal, message, t.updates + [u]), u)
  }

  /** The arguments of one `update` call. */
  datatype Step = Step(progress: real, total: Option<real>, message: string)

  /** A sequence of `update` calls applied in order. */
  function ApplySteps(t: Tracker, steps: seq<Step>): Tracker
    decreases |steps|
  {
    if |steps| == 0 then t
    else
      var last := steps[|steps| - 1];
      UpdateTracker(ApplySteps(t, steps[..|steps| - 1]), last.progress, last.total, last.message).0
  }

  /** The total named by the latest step that names one, or `initial` if none does. */
  function LatestTotal(steps: seq<Step>, initial: real): real
    decreases |steps|
  {
    if |steps| == 0 then initial
    else if steps[|steps| - 1].total.Some? then steps[|steps| - 1].total.value
    else LatestTotal(steps[..|steps| - 1], initial)
  }

  /**
   * After any sequence of updates: the history grew by one entry per update, in call
   * order, and the total is the latest one given (the initial total if none was).
   */
  lemma {:induction false} ApplyStepsHistory(t: Tracker, steps: seq<Step>)
    ensures var t' := ApplySteps(t, steps);
            && t'.token == t.token
            && |t'.updates| == |t.updates| + |steps|
            && t'.updates[..|t.updates|] == t.updates
            && (forall i :: 0 <= i < |steps| ==>
                  t'.updates[|t.updates| + i].progress == steps[i].progress &&
                  t'.updates[|t.updates| + i].message == steps[i].message)
            && t'.total == LatestTotal(steps, t.total)
    decreases |steps|
  {
    if |steps| > 0 {
      var front := steps[..|steps| - 1];
      ApplyStepsHistory(t, front);
      var mid := ApplySteps(t, front);
      assert forall i :: 0 <= i < |front| ==> front[i] == steps[i];
      var last := steps[|steps| - 1];
      var t' := UpdateTracker(mid, last.progress, last.total, last.message).0;
      assert t'.updates == mid.updates + [t'.updates[|t'.updates| - 1]];
      assert t'.updates[..|t.updates|] == mid.updates[..|t.updates|];
    }
  }

  /** The `data` of a "tool_progress" event, as both progress callbacks build it. */
  datatype ProgressEvent = ProgressEvent(tool: string, progress: Json.Json, total: Json.Json,
                                         percentage: Json.Json, message: Json.Json)

  /**
   * The payload read from a progress dictionary with `.get` defaults: progress 0,
   * total 1, percentage 0 and an empty message.
   */
  function ProgressPayload(tool: string, data: Json.Dict): (e: ProgressEvent)
    ensures e.tool == tool
    ensures !Json.HasKey(data, "progress") ==> e.progress == Json.Num(0)
    ensures !Json.HasKey(data, "total") ==> e.total == Json.Num(1)
    ensures !Json.HasKey(data, "percentage") ==> e.percentage == Json.Num(0)
    ensures !Json.HasKey(data, "message") ==> e.message == Json.Str("")
    ensures Json.HasKey(data, "progress") ==> e.progress == Json.Get(data, "progress", Json.Null)
    ensures Json.HasKey(data, "total") ==> e.total == Json.Get(data, "total", Json.Null)
    ensures Json.HasKey(data, "percentage") ==> e.percentage == Json.Get(data, "percentage", Json.Null)
    ensures Json.HasKey(data, "message") ==> e.message == Json.Get(data, "message", Json.Null)
  {
    PresentKey(data, "progress", Json.Num(0));
    PresentKey(data, "total", Json.Num(1));
    PresentKey(data, "percentage", Json.Num(0));
    PresentKey(data, "message", Json.Str(""));
    ProgressEvent(tool, Json.Get(data, "progress", Json.Num(0)), Json.Get(data, "total", Json.Num(1)),
                  Json.Get(data, "percentage", Json.Num(0)), Json.Get(data, "message", Json.Str("")))
  }

  /** A present key's value does not depend on the default. */
  lemma PresentKey(data: Json.Dict, key: string, default: Json.Json)
    ensures Json.HasKey(data, key) ==> Json.Get(data, key, default) == Json.Get(data, key, Json.Null)
  {
    if Json.HasKey(data, key) {
      Json.GetPresent(data, key, default, Json.Null);
    }
  }
}
