// The invocation as the gateway runs it: request, wait, bind, stream events, drain, decide. Its
// outcome is the run of the transition function over the same frames.
module Invocation {
  import opened Wrappers
  import opened Json
  import opened Protocol
  import opened Driver
  import Diagnostics
  import Paths
  import P = ProtocolState

  // The frames of standard output that have not been read yet, and the capture budget used so far.
  class Reader {
    const frames: seq<Frame>
    var next: nat
    var captured: nat

    predicate Valid()
      reads this
    {
      next <= |frames|
    }

    constructor (frames: seq<Frame>)
      ensures Valid() && this.frames == frames && next == 0 && captured == 0
    {
      this.frames := frames;
      next, captured := 0, 0;
    }

    // The next message, none at the end of the stream, or the error that ends the run.
    method ReadOptionalMessage() returns (r: Result<Option<Json>, Error>)
      requires Valid()
      modifies this
      ensures Valid()
      ensures old(next) == |frames| ==> r == Ok(None) && next == old(next) && captured == old(captured)
      ensures old(next) < |frames| ==>
                var read := ReadFrame(frames[old(next)], old(captured));
                && next == old(next) + 1
                && r == (if read.Ok? then Ok(Some(read.value)) else Err(read.error))
                && (read.Ok? ==> captured == old(captured) + frames[old(next)].bytes)
    {
      if next == |frames| {
        return Ok(None);
      }
      var frame := frames[next];
      next := next + 1;
      if !frame.Line? {
        return Err(if frame.Invalid? then ProtocolViolation("frame_invalid") else ProcessExited);
      }
      captured := captured + frame.bytes;
      if captured > MAX_CAPTURE_BYTES {
        return Err(ProtocolViolation("capture_limit_exceeded"));
      }
      if frame.value.None? {
        return Err(ProtocolViolation("json_invalid"));
      }
      return Ok(frame.value);
    }
  }

  // What the run will come to from here: the outcome over the frames not read yet.
  ghost function Pending(state: P.State, reader: Reader, phase: Phase): Outcome
    requires reader.Valid()
    reads state, reader
  {
    Run(state.ctx, Progress(phase, state.View(), reader.captured), reader.frames[reader.next..])
  }

  // A notification that arrives before the response to the request of a phase.
  method ObserveWhileWaiting(state: P.State, message: Json, ghost p: Progress) returns (r: Result<bool, Error>)
    requires IsWaiting(p.phase) && p.monitor == state.View() && IsNotification(message)
    modifies state
    ensures OnMessage(state.ctx, p, message) == if r.Ok? then Continue(p.(monitor := state.View())) else Stop(state.View(), r.error)
  {
    r := state.ObserveNotification(message);
    if r == Ok(true) {
      r := Err(ProtocolViolation("terminal_before_response"));
    }
  }

  // Any other message that arrives while a phase waits: the response, a rejection or a violation.
  method AcceptResponse(state: P.State, phase: Phase, message: Json, ghost p: Progress) returns (r: Result<Json, Error>)
    requires IsWaiting(p.phase) && p.phase == phase && p.monitor == state.View() && !IsNotification(message)
    modifies state
    ensures OnMessage(state.ctx, p, message) == if r.Ok? then OnResult(state.ctx, p, r.value) else Stop(state.View(), r.error)
    ensures r.Ok? ==> state.View() == old(state.View())
  {
    if AsI64(Get(message, "id")) != Some(ExpectedId(phase)) {
      return Err(ProtocolViolation("unexpected_response_id"));
    }
    var result, error := Get(message, "result"), Get(message, "error");
    if result.Some? && error.None? {
      return Ok(result.value);
    }
    if result.None? && error.Some? {
      state.RecordFailure(Diagnostics.RpcRejection, error.value);
      return Err(RequestRejected);
    }
    return Err(ProtocolViolation("response_envelope_invalid"));
  }

  // What the run will come to once a phase has its response.
  ghost function PendingResult(state: P.State, reader: Reader, phase: Phase, value: Json): Outcome
    requires reader.Valid() && IsWaiting(phase)
    reads state, reader
  {
    RunMove(state.ctx, OnResult(state.ctx, Progress(phase, state.View(), reader.captured), value), reader.frames[reader.next..])
  }

  // Reads one message while waiting: the response, or nothing yet.
  method AwaitResponse(state: P.State, reader: Reader, phase: Phase) returns (r: Result<Option<Json>, Error>)
    requires reader.Valid() && IsWaiting(phase)
    modifies state, reader
    ensures reader.Valid()
    ensures old(reader.next) == |reader.frames| ==> r == Err(ProcessExited) && state.View() == old(state.View())
    ensures old(reader.next) < |reader.frames| ==>
              var move := OnFrame(state.ctx, old(Progress(phase, state.View(), reader.captured)), reader.frames[old(reader.next)]);
              var now := Progress(phase, state.View(), reader.captured);
              && reader.next == old(reader.next) + 1
              && (r.Err? ==> move == Stop(state.View(), r.error))
              && (r == Ok(None) ==> move == Continue(now))
              && (r.Ok? && r.value.Some? ==> move == OnResult(state.ctx, now, r.value.value))
  {
    hide WhileWaiting, OnResult, Observe;
    var read := reader.ReadOptionalMessage();
    if read.Err? {
      return Err(read.error);
    }
    if read.value.None? {
      return Err(ProcessExited);
    }
    ghost var p := Progress(phase, state.View(), reader.captured);
    if IsNotification(read.value.value) {
      var verdict := ObserveWhileWaiting(state, read.value.value, p);
      return if verdict.Err? then Err(verdict.error) else Ok(None);
    }
    var response := AcceptResponse(state, phase, read.value.value, p);
    return if response.Err? then Err(response.error) else Ok(Some(response.value));
  }

  // Observes notifications until the response to the request of a phase arrives.
  method WaitForResponse(state: P.State, reader: Reader, phase: Phase) returns (r: Result<Json, Error>)
    requires reader.Valid() && IsWaiting(phase)
    modifies state, reader
    ensures reader.Valid()
    ensures r.Err? ==> old(Pending(state, reader, phase)) == Outcome(state.View(), Err(r.error))
    ensures r.Ok? ==> old(Pending(state, reader, phase)) == PendingResult(state, reader, phase, r.value)
  {
    hide Run, OnFrame, OnResult, Authority;
    while true
      invariant reader.Valid()
      invariant old(Pending(state, reader, phase)) == Pending(state, reader, phase)
      decreases |reader.frames| - reader.next
    {
      RunFrom(state.ctx, Progress(phase, state.View(), reader.captured), reader.frames, reader.next);
      var response := AwaitResponse(state, reader, phase);
      if response.Err? {
        return Err(response.error);
      }
      if response.value.Some? {
        return Ok(response.value.value);
      }
    }
  }

  // One event of the turn; a verdict of true ends it.
  method ObserveEvent(state: P.State, message: Json, ghost p: Progress) returns (r: Result<bool, Error>)
    requires p.phase == EventStream && p.monitor == state.View()
    modifies state
    ensures OnMessage(state.ctx, p, message) ==
              if r.Err? then Stop(state.View(), r.error)
              else Continue(p.(monitor := state.View(), phase := if r.value then PostTerminal else EventStream))
  {
    if Has(message, "id") {
      return Err(ProtocolViolation("unexpected_response"));
    }
    r := state.ObserveNotification(message);
  }

  // Reads one event of the turn; a verdict of true says that the turn has completed.
  method ReadEvent(state: P.State, reader: Reader) returns (r: Result<bool, Error>)
    requires reader.Valid()
    modifies state, reader
    ensures reader.Valid()
    ensures old(reader.next) == |reader.frames| ==> r == Err(ProcessExited) && state.View() == old(state.View())
    ensures old(reader.next) < |reader.frames| ==>
              var move := OnFrame(state.ctx, old(Progress(EventStream, state.View(), reader.captured)), reader.frames[old(reader.next)]);
              && reader.next == old(reader.next) + 1
              && move == if r.Err? then Stop(state.View(), r.error)
                         else Continue(Progress(if r.value then PostTerminal else EventStream, state.View(), reader.captured))
  {
    var read := reader.ReadOptionalMessage();
    if read.Err? {
      return Err(read.error);
    }
    if read.value.None? {
      return Err(ProcessExited);
    }
    r := ObserveEvent(state, read.value.value, Progress(EventStream, state.View(), reader.captured));
  }

  // Observes the events of the turn until it completes.
  method StreamEvents(state: P.State, reader: Reader) returns (r: Result<bool, Error>)
    requires reader.Valid()
    modifies state, reader
    ensures reader.Valid()
    ensures r.Err? ==> old(Pending(state, reader, EventStream)) == Outcome(state.View(), Err(r.error))
    ensures r.Ok? ==> old(Pending(state, reader, EventStream)) == Pending(state, reader, PostTerminal)
  {
    hide Run, OnFrame, OnResult, Authority;
    while true
      invariant reader.Valid()
      invariant old(Pending(state, reader, EventStream)) == Pending(state, reader, EventStream)
      decreases |reader.frames| - reader.next
    {
      RunFrom(state.ctx, Progress(EventStream, state.View(), reader.captured), reader.frames, reader.next);
      r := ReadEvent(state, reader);
      if r.Err? || r.value {
        return;
      }
    }
  }

  // One message after the end of the turn; nothing the monitor tracks may be among them.
  method ObserveAfterTurn(state: P.State, message: Json, ghost p: Progress) returns (r: Result<bool, Error>)
    requires p.phase == PostTerminal && p.monitor == state.View()
    modifies state
    ensures OnMessage(state.ctx, p, message) == if r.Err? then Stop(state.View(), r.error) else Continue(p.(monitor := state.View()))
    ensures r != Ok(true)
  {
    if !IsNotification(message) {
      return Err(ProtocolViolation("post_terminal_message_invalid"));
    }
    if IsTracked(message) {
      return Err(ProtocolViolation("post_terminal_event"));
    }
    r := state.ObserveNotification(message);
    if r == Ok(true) {
      r := Err(ProtocolViolation("post_terminal_event"));
    }
  }

  // Reads one message after the end of the turn; a verdict of true says that the stream has ended.
  method ReadAfterTurn(state: P.State, reader: Reader) returns (r: Result<bool, Error>)
    requires reader.Valid()
    modifies state, reader
    ensures reader.Valid()
    ensures r == Ok(true) <==> old(reader.next) == |reader.frames|
    ensures r == Ok(true) ==> state.View() == old(state.View())
    ensures old(reader.next) < |reader.frames| ==>
              var move := OnFrame(state.ctx, old(Progress(PostTerminal, state.View(), reader.captured)), reader.frames[old(reader.next)]);
              && reader.next == old(reader.next) + 1
              && move == if r.Err? then Stop(state.View(), r.error)
                         else Continue(Progress(PostTerminal, state.View(), reader.captured))
  {
    var read := reader.ReadOptionalMessage();
    if read.Err? {
      return Err(read.error);
    }
    if read.value.None? {
      return Ok(true);
    }
    r := ObserveAfterTurn(state, read.value.value, Progress(PostTerminal, state.View(), reader.captured));
  }

  // Reads what follows the end of the turn until the stream ends.
  method DrainAfterTurn(state: P.State, reader: Reader) returns (r: Result<bool, Error>)
    requires reader.Valid()
    modifies state, reader
    ensures reader.Valid()
    ensures r.Err? ==> old(Pending(state, reader, PostTerminal)) == Outcome(state.View(), Err(r.error))
    ensures r.Ok? ==> old(Pending(state, reader, PostTerminal)) == Outcome(state.View(), Authority(state.View()))
  {
    hide Run, OnFrame, OnResult, Authority;
    while true
      invariant reader.Valid()
      invariant old(Pending(state, reader, PostTerminal)) == Pending(state, reader, PostTerminal)
      decreases |reader.frames| - reader.next
    {
      RunFrom(state.ctx, Progress(PostTerminal, state.View(), reader.captured), reader.frames, reader.next);
      r := ReadAfterTurn(state, reader);
      if r.Err? || r.value {
        return;
      }
    }
  }

  // The three requests, each answered before the next is sent.
  method Negotiate(state: P.State, reader: Reader) returns (r: Result<bool, Error>)
    requires reader.Valid()
    modifies state, reader
    ensures reader.Valid()
    ensures r.Err? ==> old(Pending(state, reader, Initialize)) == Outcome(state.View(), Err(r.error))
    ensures r.Ok? ==> old(Pending(state, reader, Initialize)) == Pending(state, reader, EventStream)
  {
    var initialize := WaitForResponse(state, reader, Initialize);
    if initialize.Err? {
      return Err(initialize.error);
    }
    var home := AsText(Get(initialize.value, "codexHome"));
    if home.None? || Paths.Parse(home.value) != state.ctx.home {
      return Err(ProtocolViolation("codex_home_mismatch"));
    }
    var thread := WaitForResponse(state, reader, ThreadStart);
    if thread.Err? {
      return Err(thread.error);
    }
    var threadId := ParseUuid(AsText(Get2(thread.value, "thread", "id")));
    if threadId.None? {
      return Err(ProtocolViolation("thread_id_invalid"));
    }
    r := state.BindThread(threadId.value);
    if r.Err? {
      return;
    }
    var turn := WaitForResponse(state, reader, TurnStart);
    if turn.Err? {
      return Err(turn.error);
    }
    var turnId := AsText(Get2(turn.value, "turn", "id"));
    if turnId.None? {
      return Err(ProtocolViolation("turn_id_missing"));
    }
    r := state.BindTurn(turnId.value);
  }

  method RunCodexAppServer(ctx: Context, frames: seq<Frame>) returns (outcome: Outcome)
    ensures outcome == Run(ctx, START, frames)
  {
    var state := new P.State(ctx);
    var reader := new Reader(frames);
    assert frames[0..] == frames;
    var r := Negotiate(state, reader);
    if r.Ok? {
      r := StreamEvents(state, reader);
    }
    if r.Ok? {
      r := DrainAfterTurn(state, reader);
    }
    if r.Err? {
      return Outcome(state.View(), Err(r.error));
    }
    var authority := state.FinalAuthority();
    return Outcome(state.View(), authority);
  }
}
