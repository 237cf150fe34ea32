/** The decisions RunControlSession.dispatch and _handle_start make before anything changes:
    which action a message asks for, which run it is about, whether a start may go ahead, and
    the replies the session returns. Both versions of the session make the same decisions. */
module Control {
  import opened Common
  import opened JobModel

  const NoActiveRun := "no active run"
  const Busy := "a run is already in progress"
  const InvalidCfg := "invalid cfg"

  function ErrorReply(msg: string): (j: Json)
    ensures j.Keys == {"status", "error"} && j["status"] == Str("error") && j["error"] == Str(msg)
  {
    map["status" := Str("error"), "error" := Str(msg)]
  }

  const SuccessMessage: Json := map["status" := Str("success")]

  /** The reply to a start that went ahead. */
  function StartedReply(runId: string): Json {
    map["status" := Str("success"), "run_id" := Str(runId)]
  }

  /** The reply to status: the runner's snapshot under "run". */
  function StatusReply(snapshot: Json): Json {
    map["status" := Str("success"), "run" := Obj(snapshot)]
  }

  /** The reply of pause, resume, cancel and restart: the runner refuses each with
      NotImplementedError, and the session reports its text as an error. */
  function OpReply(op: ControlOp): (j: Json)
    ensures j != SuccessMessage
    ensures "status" in j && j["status"] == Str("error")
    ensures "error" in j && j["error"] == Str(ErrorText(Unsupported(op)))
  {
    assert "error" != "success";
    ErrorReply(ErrorText(Unsupported(op)))
  }

  /** msg.get("action_type", ""). */
  function Action(msg: Json): Value {
    if "action_type" in msg then msg["action_type"] else Str("")
  }

  /** `msg.get("run_id") or curr_run_id`, kept only when it is truthy. */
  function ResolveRunId(msg: Json, curr: Option<string>): (r: Option<Value>)
    ensures r.Some? ==> Truthy(r.value)
    ensures Truthy(Get(msg, "run_id")) ==> r == Some(Get(msg, "run_id"))
    ensures !Truthy(Get(msg, "run_id")) && curr.Some? && curr.value != "" ==> r == Some(Str(curr.value))
    ensures r.None? <==> !Truthy(Get(msg, "run_id")) && (curr.None? || curr.value == "")
  {
    var given := Get(msg, "run_id");
    if Truthy(given) then Some(given)
    else
      var fallback := OptStr(curr);
      if Truthy(fallback) then Some(fallback) else None
  }

  /** What dispatch goes on to do with a message. */
  datatype Route =
    | RouteStart(cfg: Value)      // _handle_start(msg["cfg"])
    | RouteStatus(runId: Value)   // status(rid)
    | RouteCancel(runId: Value)   // cancel(rid)
    | Reply(reply: Json)          // an immediate reply
    | Fault(err: PyError)         // dispatch raises

  /** dispatch's branch on action_type. */
  function RouteMessage(msg: Json, curr: Option<string>): (r: Route)
    ensures r.RouteStart? <==> Action(msg) == Str("start") && "cfg" in msg
    ensures r.RouteStart? ==> r.cfg == msg["cfg"]
    ensures r.Fault? <==> Action(msg) == Str("start") && "cfg" !in msg
    ensures r.Fault? ==> r.err == KeyError("cfg")
    ensures r.RouteStatus? <==> Action(msg) == Str("status") && ResolveRunId(msg, curr).Some?
    ensures r.RouteCancel? <==> Action(msg) == Str("cancel") && ResolveRunId(msg, curr).Some?
    ensures (r.RouteStatus? || r.RouteCancel?) ==> Some(r.runId) == ResolveRunId(msg, curr)
    ensures r == Reply(ErrorReply(NoActiveRun)) <==>
              (Action(msg) == Str("status") || Action(msg) == Str("cancel")) && ResolveRunId(msg, curr).None?
    ensures Action(msg) !in {Str("start"), Str("status"), Str("cancel")} ==>
              r == Reply(ErrorReply("unknown action_type=" + Show(Action(msg))))
  {
    var action := Action(msg);
    if action == Str("start") then
      if "cfg" in msg then RouteStart(msg["cfg"]) else Fault(KeyError("cfg"))
    else if action == Str("status") then
      match ResolveRunId(msg, curr)
      case None => Reply(ErrorReply(NoActiveRun))
      case Some(rid) => RouteStatus(rid)
    else if action == Str("cancel") then
      match ResolveRunId(msg, curr)
      case None => Reply(ErrorReply(NoActiveRun))
      case Some(rid) => RouteCancel(rid)
    else
      var text := "unknown action_type=" + Show(action);
      assert text[0] != NoActiveRun[0];
      Reply(ErrorReply(text))
  }

  /** A message that names its run is routed to that run, whatever run the connection is
      following; a message that does not is routed to the connection's run. */
  lemma RunIdResolution(msg: Json, curr: Option<string>, other: Option<string>)
    requires Action(msg) == Str("status")
    ensures Truthy(Get(msg, "run_id")) ==>
              RouteMessage(msg, curr) == RouteMessage(msg, other) == RouteStatus(Get(msg, "run_id"))
    ensures !Truthy(Get(msg, "run_id")) && curr.Some? && curr.value != "" ==>
              RouteMessage(msg, curr) == RouteStatus(Str(curr.value))
  {
  }

  /** The outcome of _handle_start's two checks. */
  datatype Gate = Refuse(reason: string) | GateFault(err: PyError) | Go

  /** `err or "invalid cfg"`. */
  function ReasonText(reason: Option<string>): string {
    match reason
    case Some(s) => if s == "" then InvalidCfg else s
    case None => InvalidCfg
  }

  /** _handle_start: the busy check comes before validation; a failed validation is refused
      with its reason; validate raising makes the start raise. */
  function StartGate(busy: bool, cfg: Value): (g: Gate)
    ensures busy ==> g == Refuse(Busy)
    ensures !busy && Validate(cfg).Err? ==> g == GateFault(Validate(cfg).error)
    ensures g == Go <==> !busy && Validate(cfg) == Ok(Verdict(true, None))
    ensures !busy && Validate(cfg).Ok? && !Validate(cfg).value.ok ==>
              g == Refuse(ReasonText(Validate(cfg).value.reason))
  {
    if busy then Refuse(Busy)
    else
      match Validate(cfg)
      case Err(e) => GateFault(e)
      case Ok(v) => if v.ok then Go else Refuse(ReasonText(v.reason))
  }

  /** For a cfg that `in` can test (a dict, a list or a str), the gate's verdict is one of the
      three fixed answers: the fallback "invalid cfg" is never used, because validate always
      gives a reason. A list opens the gate when it holds the strings "label" and a data key. */
  lemma StartGateOnContainer(busy: bool, cfg: Value)
    requires Container(cfg)
    ensures StartGate(busy, cfg) != Refuse(InvalidCfg)
    ensures StartGate(busy, cfg) in {Refuse(Busy), Refuse(LabelRequired), Refuse(DataRequired), Go}
    ensures !busy ==> (StartGate(busy, cfg) == Go <==> Holds(cfg, "label") && HoldsData(cfg))
  {
    if !busy {
      var v := Validate(cfg).value;
      assert v == Verdict(false, Some(LabelRequired)) || v == Verdict(false, Some(DataRequired)) || v == Verdict(true, None);
    }
  }
}
