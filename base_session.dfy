/** BaseSession: the lifecycle every websocket session shares. on_connect runs once; then each
    frame is received and decoded, handed to the subclass's dispatch, and its reply sent back;
    a bad frame or a failing dispatch is answered with an error frame and the loop goes on; a
    disconnect or a cancellation ends the loop; on_close runs once at the end, whatever ended it.

    The websocket is replaced by the sequence of frames it delivers. Each text frame also
    carries what the subclass's dispatch does with its message when that message arrives,
    so the replies may depend on whatever the session's earlier messages changed. */
module BaseSession {
  import opened Common

  /** The two exceptions that end the loop: WebSocketDisconnect and asyncio.CancelledError. */
  datatype Signal = Disconnect(code: int) | Cancelled

  /** How an awaited call ended: it returned, it raised one of the loop-ending signals, or it
      raised an ordinary exception. */
  datatype Outcome<+T> = Returned(value: T) | Stopped(sig: Signal) | Failed(err: PyError)

  /** json.loads on a text frame: a JSONDecodeError with its message, or the decoded value. */
  datatype Decoded = BadJson(msg: string) | Parsed(v: Value)

  /** What receive_text does: returns a text frame (already put through json.loads) or raises.
      `reply` is what dispatch returns or raises for the frame's message, given the session's
      state when it arrives; it matters only when the frame decodes to a JSON object. */
  datatype Frame =
    | Text(decoded: Decoded, reply: Outcome<Option<Json>>)
    | RecvStopped(sig: Signal)
    | RecvFailed(err: PyError)

  const NotAnObject := "Expected top-level JSON object (dict)"

  /** recv_json: a frame that is not JSON raises ValueError naming the decoder's message, a
      JSON value that is not an object raises TypeError, an object is returned as it is. */
  function RecvJson(f: Frame): (r: Outcome<Json>)
    ensures r.Returned? <==> f.Text? && f.decoded.Parsed? && f.decoded.v.Obj?
    ensures r.Returned? ==> r.value == f.decoded.v.fields
    ensures r.Stopped? <==> f.RecvStopped?
    ensures f.Text? && f.decoded.BadJson? ==>
              r == Failed(Raised("ValueError", "Invalid JSON from client: " + f.decoded.msg))
    ensures f.Text? && f.decoded.Parsed? && !f.decoded.v.Obj? ==> r == Failed(Raised("TypeError", NotAnObject))
  {
    match f
    case RecvStopped(s) => Stopped(s)
    case RecvFailed(e) => Failed(e)
    case Text(BadJson(m), _) => Failed(Raised("ValueError", "Invalid JSON from client: " + m))
    case Text(Parsed(v), _) => if v.Obj? then Returned(v.fields) else Failed(Raised("TypeError", NotAnObject))
  }

  const BadRequest := "bad_request"

  /** The frame send_error sends. */
  function ErrorPayload(detail: string, code: string): (p: Json)
    ensures p.Keys == {"type", "code", "detail"}
    ensures p["type"] == Str("error") && p["code"] == Str(code) && p["detail"] == Str(detail)
  {
    map["type" := Str("error"), "code" := Str(code), "detail" := Str(detail)]
  }

  /** json.dumps accepts every error frame: it holds only strings. */
  lemma ErrorPayloadSerializable(detail: string, code: string)
    ensures Serializable(Obj(ErrorPayload(detail, code)))
  {
    var p := ErrorPayload(detail, code);
    assert forall k | k in p :: p[k].Str?;
  }

  /** How the loop ended: it is still waiting for a frame the sequence does not hold, it broke
      on a signal, or send_json raised because json.dumps refused this payload. */
  datatype LoopEnd = Waiting | Closed(sig: Signal) | SendFailed(payload: Json)

  /** What an iteration does: sends these frames and goes on, or sends these and ends. */
  datatype StepResult = Next(out: seq<Json>) | Halt(out: seq<Json>, end: LoopEnd)

  /** send_json inside the loop: the payload goes out when json.dumps accepts it; otherwise
      ValueError leaves the loop. */
  function Emit(p: Json): (s: StepResult)
    ensures s.Next? <==> Serializable(Obj(p))
    ensures s.Next? ==> s.out == [p]
    ensures s.Halt? ==> s == Halt([], SendFailed(p))
  {
    if Serializable(Obj(p)) then Next([p]) else Halt([], SendFailed(p))
  }

  /** One iteration of run_loop for one frame. */
  function Handle(f: Frame): (s: StepResult)
    ensures |s.out| <= 1
    ensures s.Halt? ==> s.out == [] && !s.end.Waiting?
    ensures RecvJson(f).Returned? && f.reply == Returned(None) ==> s == Next([])
  {
    match RecvJson(f)
    case Stopped(sig) => Halt([], Closed(sig))
    case Failed(e) => Emit(ErrorPayload("bad message: " + ErrorText(e), "bad_message"))
    case Returned(_) =>
      match f.reply
      case Stopped(sig) => Halt([], Closed(sig))
      case Failed(e) => Emit(ErrorPayload("server error: " + ErrorText(e), "server_error"))
      case Returned(reply) =>
        match reply
        case None => Next([])
        case Some(resp) => Emit(resp)
  }

  /** What run_loop sends and how it ends, given every frame it will be delivered. */
  datatype Trace = Trace(sent: seq<Json>, end: LoopEnd)

  /** The shape of the loop for any handling of a frame: iterations run in order until one ends
      the loop or the frames run out. */
  function Run(frames: seq<Frame>, handle: Frame -> StepResult): (t: Trace)
    ensures frames == [] ==> t == Trace([], Waiting)
  {
    if frames == [] then Trace([], Waiting)
    else
      match handle(frames[0])
      case Next(out) =>
        var rest := Run(frames[1..], handle);
        Trace(out + rest.sent, rest.end)
      case Halt(out, end) => Trace(out, end)
  }

  /** run_loop, with its own handling of each frame. */
  function Serve(frames: seq<Frame>): (t: Trace) {
    Run(frames, Handle)
  }

  /** Serve from the i-th frame on, one iteration at a time. */
  lemma ServeAt(frames: seq<Frame>, i: nat)
    requires i < |frames|
    ensures var s := Handle(frames[i]);
            var rest := Serve(frames[i + 1..]);
            Serve(frames[i..]) == if s.Next? then Trace(s.out + rest.sent, rest.end) else Trace(s.out, s.end)
  {
    assert frames[i..][0] == frames[i] && frames[i..][1..] == frames[i + 1..];
    ServeFirst(frames[i..]);
  }

  /** Every iteration sends at most one frame. */
  lemma {:induction false} ServeBound(frames: seq<Frame>)
    ensures |Serve(frames).sent| <= |frames|
  {
    if frames != [] {
      ServeBound(frames[1..]);
    }
  }

  /** One step of Serve: the first frame's iteration, then the rest unless it ended the loop. */
  lemma ServeFirst(frames: seq<Frame>)
    requires frames != []
    ensures var s := Handle(frames[0]);
            Serve(frames) ==
              if s.Next? then Trace(s.out + Serve(frames[1..]).sent, Serve(frames[1..]).end)
              else Trace(s.out, s.end)
  {
  }

  lemma {:induction false} RunAppend(f1: seq<Frame>, f2: seq<Frame>, handle: Frame -> StepResult)
    requires forall f :: handle(f).Halt? ==> !handle(f).end.Waiting?
    ensures Run(f1, handle).end.Waiting? ==>
              Run(f1 + f2, handle) == Trace(Run(f1, handle).sent + Run(f2, handle).sent, Run(f2, handle).end)
    ensures !Run(f1, handle).end.Waiting? ==> Run(f1 + f2, handle) == Run(f1, handle)
  {
    if f1 == [] {
      assert f1 + f2 == f2;
    } else {
      assert (f1 + f2)[0] == f1[0] && (f1 + f2)[1..] == f1[1..] + f2;
      RunAppend(f1[1..], f2, handle);
      var step := handle(f1[0]);
      var t1 := Run(f1[1..], handle);
      var t2 := Run(f2, handle);
      var t12 := Run(f1[1..] + f2, handle);
      if step.Next? {
        assert Run(f1, handle) == Trace(step.out + t1.sent, t1.end);
        assert Run(f1 + f2, handle) == Trace(step.out + t12.sent, t12.end);
        if t1.end.Waiting? {
          assert step.out + (t1.sent + t2.sent) == (step.out + t1.sent) + t2.sent;
        }
      } else {
        assert Run(f1, handle) == Trace(step.out, step.end);
        assert Run(f1 + f2, handle) == Trace(step.out, step.end);
      }
    }
  }

  /** The loop over a longer stream: the frames after an ending are never read, and until the
      loop ends the two halves are served one after the other. */
  lemma ServeAppend(f1: seq<Frame>, f2: seq<Frame>)
    ensures Serve(f1).end.Waiting? ==>
              Serve(f1 + f2) ==
                Trace(Serve(f1).sent + Serve(f2).sent, Serve(f2).end)
    ensures !Serve(f1).end.Waiting? ==> Serve(f1 + f2) == Serve(f1)
  {
    RunAppend(f1, f2, Handle);
  }

  /** A frame that cannot be read as a JSON object is answered with one bad_message error
      frame, and the loop goes on with the next frame. */
  lemma BadFrameContinues(f: Frame, rest: seq<Frame>)
    requires RecvJson(f).Failed?
    ensures Serve([f] + rest) ==
              Trace([ErrorPayload("bad message: " + ErrorText(RecvJson(f).err), "bad_message")] + Serve(rest).sent,
                    Serve(rest).end)
  {
    ErrorPayloadSerializable("bad message: " + ErrorText(RecvJson(f).err), "bad_message");
    assert ([f] + rest)[0] == f && ([f] + rest)[1..] == rest;
    ServeFirst([f] + rest);
  }

  /** A dispatch that raises an ordinary exception is answered with one server_error frame,
      and the loop goes on. */
  lemma DispatchFaultContinues(f: Frame, rest: seq<Frame>)
    requires RecvJson(f).Returned? && f.reply.Failed?
    ensures Serve([f] + rest) ==
              Trace([ErrorPayload("server error: " + ErrorText(f.reply.err), "server_error")] +
                      Serve(rest).sent,
                    Serve(rest).end)
  {
    ErrorPayloadSerializable("server error: " + ErrorText(f.reply.err), "server_error");
    assert ([f] + rest)[0] == f && ([f] + rest)[1..] == rest;
    ServeFirst([f] + rest);
  }

  /** A message whose dispatch returns None is answered with nothing, and the loop goes on
      with the next frame. */
  lemma NoReplyContinues(f: Frame, rest: seq<Frame>)
    requires RecvJson(f).Returned? && f.reply == Returned(None)
    ensures Serve([f] + rest) == Serve(rest)
  {
    assert ([f] + rest)[0] == f && ([f] + rest)[1..] == rest;
    ServeFirst([f] + rest);
  }

  /** A disconnect or a cancellation, whether it comes from the receive or from dispatch,
      ends the loop at once: nothing more is sent and no later frame is read. */
  lemma SignalEndsLoop(f: Frame, rest: seq<Frame>, sig: Signal)
    requires RecvJson(f) == Stopped(sig) || (RecvJson(f).Returned? && f.reply == Stopped(sig))
    ensures Serve([f] + rest) == Trace([], Closed(sig))
  {
  }

  /** Messages that are all JSON objects, each answered with a serializable reply, get
      exactly one response each, in order, and the loop is still waiting afterwards. */
  lemma {:induction false} OneResponsePerMessage(frames: seq<Frame>)
    requires forall i | 0 <= i < |frames| ::
               RecvJson(frames[i]).Returned? && frames[i].reply.Returned? && frames[i].reply.value.Some? &&
               Serializable(Obj(frames[i].reply.value.value))
    ensures Serve(frames).end == Waiting
    ensures |Serve(frames).sent| == |frames|
    ensures forall i | 0 <= i < |frames| ::
              frames[i].Text? && Serve(frames).sent[i] == frames[i].reply.value.value
  {
    if frames != [] {
      OneResponsePerMessage(frames[1..]);
      var t := Serve(frames[1..]);
      assert Serve(frames).sent == [frames[0].reply.value.value] + t.sent;
      forall i | 0 <= i < |frames|
        ensures frames[i].Text? && Serve(frames).sent[i] == frames[i].reply.value.value
      {
        assert RecvJson(frames[i]).Returned?;
        if i > 0 {
          assert frames[1..][i - 1] == frames[i];
        }
      }
    }
  }

  class Session {
    var connected: bool                  // _ws is set
    var accepted: bool                   // ws.accept() was awaited
    var sent: seq<Json>                  // every frame sent on the websocket, in order
    var closes: seq<Option<Signal>>      // the exc of every on_close call, in order

    constructor()
      ensures !connected && !accepted && sent == [] && closes == []
    {
      connected := false;
      accepted := false;
      sent := [];
      closes := [];
    }

    /** on_connect: remembers the websocket and accepts it. */
    method OnConnect()
      modifies this
      ensures connected && accepted && sent == old(sent) && closes == old(closes)
    {
      connected := true;
      accepted := true;
    }

    /** on_close: records the exception the loop ended with. */
    method OnClose(exc: Option<Signal>)
      modifies this
      ensures closes == old(closes) + [exc]
      ensures connected == old(connected) && accepted == old(accepted) && sent == old(sent)
    {
      closes := closes + [exc];
    }

    /** send_error: one error frame with the given code ("bad_request" when the caller gives
        none) and detail. */
    method SendError(detail: string, code: string := BadRequest)
      modifies this
      ensures sent == old(sent) + [ErrorPayload(detail, code)]
      ensures connected == old(connected) && accepted == old(accepted) && closes == old(closes)
    {
      sent := sent + [ErrorPayload(detail, code)];
    }

    /** run_loop over the frames the websocket delivers. on_connect runs first; every frame
        is handled in turn until one ends the loop; on_close runs exactly once when the loop
        ends, with the signal that ended it, or with None when send_json raised. While the
        frames run out before anything ends the loop, the loop is still waiting and on_close
        has not run. */
    method RunLoop(frames: seq<Frame>) returns (end: LoopEnd)
      modifies this
      ensures end == Serve(frames).end
      ensures sent == old(sent) + Serve(frames).sent
      ensures connected && accepted
      ensures end.Waiting? ==> closes == old(closes)
      ensures end.Closed? ==> closes == old(closes) + [Some(end.sig)]
      ensures end.SendFailed? ==> closes == old(closes) + [None]
    {
      OnConnect();
      var i := 0;
      end := Waiting;
      ghost var out: seq<Json> := [];
      assert frames[0..] == frames;
      while i < |frames|
        invariant 0 <= i <= |frames|
        invariant connected && accepted && closes == old(closes)
        invariant sent == old(sent) + out
        invariant Serve(frames) == Trace(out + Serve(frames[i..]).sent, Serve(frames[i..]).end)
      {
        var step := Handle(frames[i]);
        ServeAt(frames, i);
        sent := sent + step.out;
        if step.Halt? {
          end := step.end;
          assert Serve(frames[i..]) == Trace(step.out, step.end);
          OnClose(if end.Closed? then Some(end.sig) else None);
          return;
        }
        ghost var rest := Serve(frames[i + 1..]);
        assert out + (step.out + rest.sent) == (out + step.out) + rest.sent;
        out := out + step.out;
        i := i + 1;
      }
      assert frames[i..] == [];
    }
  }
}
