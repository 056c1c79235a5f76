/**
 One upstream attempt of a stream (wiwi/core/gateway.py, `_pump` and `_pump_once`).

 Everything outside the pump is a script: how the connection opens, what each read of the
 body yields, where a fault or a cancellation of the pump's task strikes. `StreamPump.Pump`
 is the code, step by step; `Frames` and `Boxed` say what an attempt amounts to.
 */
module StreamPump {
  import opened Prelude

  // ---- the environment ------------------------------------------------------------------

  datatype Kind = Opening | Text | ToolOpen | ToolPart

  /**
   A decoded delta. `loops` marks the text at which the repetition detector fires; `Raises`
   and `Killed` are an exception and a task cancellation striking while deltas are applied.
   */
  datatype Delta =
    | Content(kind: Kind, id: int, loops: bool)
    | Usage(tokens: int)
    | Finish(reason: int)
    | Done
    | Failure(code: int)
    | Raises
    | Killed

  /** One read of the body; running out of reads is its end. */
  datatype Read = Line(event: seq<Delta>, late: bool) | Idle | Broken(timeout: bool) | Cancelled

  datatype Refresh = NotRotated | RetryUnreachable | RetryRefused(status: int) | RetryAccepted

  datatype Setup =
    | AdapterFault
    | EncodeFault
    | Unreachable(timeout: bool)
    | Refusal(status: int, refresh: Refresh)
    | ConnectFault
    | ConnectCancelled
    | Accepted

  /** What happens between the end of the body and the end of the pump. */
  datatype Tail =
    | Smooth
    | FaultBeforePricing
    | CancelledBeforePricing
    | CancelledBeforeFinish
    | CancelledBeforeEnd
    | FaultAfterEnd

  /** Reads seen after the client left; `grace` is whether a grace drain is configured. */
  datatype Leaving = Leaving(after: seq<Read>, grace: bool)

  datatype Env = Env(
    setup: Setup, live: seq<Read>, leaving: Option<Leaving>, flush: seq<Delta>, tail: Tail,
    usageDropped: bool, estimate: int, failCancelled: bool)

  // ---- what the pump produces -----------------------------------------------------------

  datatype ErrorKind = Timeout | Connection | Loop | Provider(code: int) | Incomplete | Disconnected

  datatype Frame =
    | Piece(kind: Kind, id: int)
    | UsageTotal(tokens: int)
    | FinishReason(reason: int)
    | StreamEnd
    | StreamError(error: ErrorKind)

  datatype PumpError =
    | SetupError
    | EncodeError
    | TransportError(timeout: bool)
    | UpstreamError(status: int)
    | NoOutputInTime
    | NoOutput
    | FaultBeforeOutput
    | NothingProduced

  const STOP := 0

  // ---- what an attempt amounts to -------------------------------------------------------

  predicate Looping(d: Delta) {
    d.Content? && d.kind == Text && d.loops
  }

  predicate Stops(d: Delta) {
    d.Failure? || Looping(d) || d.Raises? || d.Killed?
  }

  /** How many deltas are applied before one stops the pump. */
  function Applied(ds: seq<Delta>): (n: nat)
    ensures n <= |ds|
    ensures n < |ds| ==> Stops(ds[n])
    ensures forall i :: 0 <= i < n ==> !Stops(ds[i])
  {
    if ds == [] || Stops(ds[0]) then 0 else 1 + Applied(ds[1..])
  }

  predicate Stopped(ds: seq<Delta>) {
    Applied(ds) < |ds|
  }

  function Delivered(ds: seq<Delta>): seq<Frame> {
    if ds == [] then []
    else
      var d := ds[|ds| - 1];
      if d.Content? then Delivered(ds[..|ds| - 1]) + [Piece(d.kind, d.id)] else Delivered(ds[..|ds| - 1])
  }

  function LastFinish(ds: seq<Delta>): Option<int> {
    if ds == [] then None
    else if ds[|ds| - 1].Finish? then Some(ds[|ds| - 1].reason)
    else LastFinish(ds[..|ds| - 1])
  }

  function LastUsage(ds: seq<Delta>): Option<int> {
    if ds == [] then None
    else if ds[|ds| - 1].Usage? then Some(ds[|ds| - 1].tokens)
    else LastUsage(ds[..|ds| - 1])
  }

  function SawDone(ds: seq<Delta>): bool {
    ds != [] && (ds[|ds| - 1].Done? || SawDone(ds[..|ds| - 1]))
  }

  /** The deltas of the leading lines. */
  function LineDeltas(body: seq<Read>): seq<Delta> {
    if body == [] || !body[0].Line? then [] else body[0].event + LineDeltas(body[1..])
  }

  /** The first read that is not a line; none means the body just ended. */
  function Interruption(body: seq<Read>): (r: Option<Read>)
    ensures r.Some? ==> !r.value.Line?
  {
    if body == [] then None else if body[0].Line? then Interruption(body[1..]) else Some(body[0])
  }

  /** The error frame of a failing stream, unless the pump is cancelled while failing it. */
  function Fail(env: Env, e: ErrorKind): seq<Frame> {
    if env.failCancelled then [] else [StreamError(e)]
  }

  function StopFrames(env: Env, d: Delta): seq<Frame>
    requires Stops(d)
  {
    match d
    case Failure(code) => Fail(env, Provider(code))
    case Content(_, _, _) => Fail(env, Loop)
    case Raises => Fail(env, Connection)
    case _ => []
  }

  function InterruptFrames(env: Env, r: Read): seq<Frame> {
    match r
    case Idle => Fail(env, Timeout)
    case Broken(timeout) => Fail(env, if timeout then Timeout else Connection)
    case _ => []
  }

  /** The usage to report: the provider's, or an estimate where it sent no prompt count. */
  function Reported(env: Env, ds: seq<Delta>): int {
    var u := LastUsage(ds).GetOr(0);
    if u == 0 then env.estimate else u
  }

  /** The end of a drained body, with the client still there. */
  function EndFrames(env: Env, ds: seq<Delta>): seq<Frame> {
    if env.tail.FaultBeforePricing? then Fail(env, Connection)
    else if env.tail.CancelledBeforePricing? then []
    else if LastFinish(ds).None? && !SawDone(ds) then Fail(env, Incomplete)
    else
      var usage := if env.usageDropped then [] else [UsageTotal(Reported(env, ds))];
      if env.tail.CancelledBeforeFinish? then usage
      else
        var finish := usage + [FinishReason(LastFinish(ds).GetOr(STOP))];
        if env.tail.CancelledBeforeEnd? then finish else finish + [StreamEnd]
  }

  function DrainedFrames(env: Env, ds: seq<Delta>): seq<Frame> {
    if Stopped(env.flush) then
      Delivered(ds + env.flush[..Applied(env.flush)]) + StopFrames(env, env.flush[Applied(env.flush)])
    else Delivered(ds + env.flush) + EndFrames(env, ds + env.flush)
  }

  /** How a grace drain ends: with a late line or the end of the body, or interrupted. */
  function DrainEnd(body: seq<Read>): (r: Option<Read>)
    ensures r.Some? ==> !r.value.Line?
  {
    if body == [] then None
    else if !body[0].Line? then Some(body[0])
    else if body[0].late then None
    else DrainEnd(body[1..])
  }

  /** An error that strikes after the body, with the client gone. */
  function LateFrames(env: Env): seq<Frame> {
    if Stopped(env.flush) then StopFrames(env, env.flush[Applied(env.flush)])
    else if env.tail.FaultBeforePricing? then Fail(env, Connection)
    else []
  }

  /** What follows the client's leaving, after the content it was sent. */
  function GoneFrames(env: Env, l: Leaving): seq<Frame>
    requires l.after != []
  {
    if l.grace && DrainEnd(l.after[1..]).Some? then InterruptFrames(env, DrainEnd(l.after[1..]).value)
    else
      Farewell(l) + LateFrames(env)
  }

  predicate Opened(s: Setup) {
    s.Accepted? || (s.Refusal? && s.refresh.RetryAccepted?)
  }

  /** Lines arrive: the upstream has begun to answer. */
  predicate Begun(env: Env) {
    && Opened(env.setup)
    && (if env.live != [] then env.live[0].Line?
        else env.leaving.Some? && env.leaving.value.after != [] && env.leaving.value.after[0].Line?)
  }

  /** Every line was applied in full and nothing interrupted the body. */
  predicate CleanBody(body: seq<Read>) {
    !Stopped(LineDeltas(body)) && Interruption(body).None?
  }

  /** A read after which the pump reads no more. */
  predicate Ends(r: Read) {
    !r.Line? || Stopped(r.event)
  }

  function ReadFrames(env: Env, r: Read): seq<Frame>
    requires Ends(r)
  {
    if r.Line? then
      Delivered(r.event[..Applied(r.event)]) + StopFrames(env, r.event[Applied(r.event)])
    else InterruptFrames(env, r)
  }

  /** What is queued when the body did not end cleanly. */
  function BrokenFrames(env: Env, body: seq<Read>): seq<Frame>
    requires !CleanBody(body)
  {
    var ds := LineDeltas(body);
    if Stopped(ds) then Delivered(ds[..Applied(ds)]) + StopFrames(env, ds[Applied(ds)])
    else Delivered(ds) + InterruptFrames(env, Interruption(body).value)
  }

  /** Every frame the attempt queues, in order. */
  function Frames(env: Env): seq<Frame> {
    if !Begun(env) then []
    else
      var ds := LineDeltas(env.live);
      if !CleanBody(env.live) then BrokenFrames(env, env.live)
      else if env.leaving.Some? && env.leaving.value.after != [] then
        var l := env.leaving.value;
        if l.after[0].Line? then Delivered(ds) + GoneFrames(env, l)
        else Delivered(ds) + InterruptFrames(env, l.after[0])
      else DrainedFrames(env, ds)
  }

  function FirstRead(env: Env): Option<Read> {
    if env.live != [] then Some(env.live[0])
    else if env.leaving.Some? && env.leaving.value.after != [] then Some(env.leaving.value.after[0])
    else None
  }

  /** The error handed back to the retry loop, if any. */
  function Boxed(env: Env): Option<PumpError> {
    match env.setup
    case AdapterFault => Some(SetupError)
    case EncodeFault => Some(EncodeError)
    case Unreachable(timeout) => Some(TransportError(timeout))
    case Refusal(status, NotRotated) => Some(UpstreamError(status))
    case Refusal(_, RetryUnreachable) => Some(TransportError(false))
    case Refusal(_, RetryRefused(status)) => Some(UpstreamError(status))
    case ConnectFault => Some(FaultBeforeOutput)
    case ConnectCancelled => Some(NothingProduced)
    case _ =>
      match FirstRead(env)
      case None => Some(NoOutput)
      case Some(Idle) => Some(NoOutputInTime)
      case Some(Broken(_)) => Some(FaultBeforeOutput)
      case Some(Cancelled) => Some(NothingProduced)
      case Some(Line(_, _)) => None
  }

  // ---- the pump -------------------------------------------------------------------------

  /** How a step of the pump left off: going on, returning, raising, or being cancelled. */
  datatype Flow = Proceed | Return | Raised(error: ErrorKind) | TaskCancelled

  class Pump {
    const env: Env
    var queue: seq<Frame>
    var ready: bool
    var errBox: Option<PumpError>
    var started: bool
    var sawTerminal: bool
    var terminalSent: bool
    var clientGone: bool
    var finish: Option<int>
    var usage: Option<int>

    constructor (e: Env)
      ensures env == e && queue == [] && !ready && errBox == None && finish == None && usage == None
      ensures !started && !sawTerminal && !terminalSent && !clientGone
    {
      env, queue, ready, errBox := e, [], false, None;
      started, sawTerminal, terminalSent, clientGone := false, false, false, false;
      finish, usage := None, None;
    }

    /** The nonlocals after applying `ds` to a pump that had seen nothing. */
    ghost predicate Holds(ds: seq<Delta>)
      reads this
    {
      finish == LastFinish(ds) && usage == LastUsage(ds) && sawTerminal == SawDone(ds)
    }

    method FailStream(e: ErrorKind) returns (f: Flow)
      modifies this`queue, this`terminalSent
      ensures old(terminalSent) ==> f == Proceed && queue == old(queue) && terminalSent
      ensures !old(terminalSent) ==>
        && queue == old(queue) + Fail(env, e) && terminalSent == !env.failCancelled
        && f == if env.failCancelled then TaskCancelled else Proceed
    {
      if terminalSent {
        return Proceed;
      }
      if env.failCancelled {
        assert queue + [] == queue;
        return TaskCancelled;
      }
      queue := queue + [StreamError(e)];
      terminalSent := true;
      return Proceed;
    }

    /** A delta that ends the pump: a provider error, a repetition loop, or a fault. */
    method StopOn(d: Delta) returns (f: Flow)
      requires Stops(d) && !terminalSent
      modifies this`queue, this`terminalSent
      ensures f != Proceed && (f.Raised? <==> d.Raises?) && (f.Raised? ==> f == Raised(Connection) && !terminalSent)
      ensures queue == if f.Raised? then old(queue) else old(queue) + StopFrames(env, d)
    {
      match d {
        case Failure(code) =>
          f := FailStream(Provider(code));
        case Content(_, _, _) =>
          f := FailStream(Loop);
        case Raises =>
          return Raised(Connection);
        case Killed =>
          assert queue + [] == queue;
          return TaskCancelled;
      }
      f := if f == Proceed then Return else f;
    }

    /** Routes one event's deltas, in order, until one stops the pump. */
    method ApplyDeltas(ghost before: seq<Delta>, ds: seq<Delta>) returns (f: Flow)
      requires !terminalSent && Holds(before)
      modifies this`queue, this`terminalSent, this`finish, this`usage, this`sawTerminal
      ensures !Stopped(ds) ==>
        && f == Proceed && !terminalSent && Holds(before + ds)
        && queue == if clientGone then old(queue) else old(queue) + Delivered(ds)
      ensures Stopped(ds) ==> f != Proceed && (f.Raised? ==> ds[Applied(ds)].Raises? && !terminalSent)
      ensures Stopped(ds) ==>
        var shown := if clientGone then old(queue) else old(queue) + Delivered(ds[..Applied(ds)]);
        queue == if f.Raised? then shown else shown + StopFrames(env, ds[Applied(ds)])
      ensures f.Raised? ==> f == Raised(Connection)
    {
      assert before + ds[..0] == before && queue + Delivered(ds[..0]) == queue;
      for i := 0 to |ds|
        invariant i <= Applied(ds) && !terminalSent && Holds(before + ds[..i])
        invariant queue == if clientGone then old(queue) else old(queue) + Delivered(ds[..i])
      {
        var d := ds[i];
        if Stops(d) {
          assert i == Applied(ds);
          f := StopOn(d);
          return;
        }
        SnocFacts(before, ds, i);
        match d {
          case Usage(tokens) => usage := Some(tokens);
          case Finish(reason) => finish := Some(reason);
          case Done => sawTerminal := true;
          case Content(kind, id, _) =>
            if !clientGone {
              queue := queue + [Piece(kind, id)];
            }
        }
      }
      assert ds[..|ds|] == ds;
      f := Proceed;
    }

    /** Hands an error back to the retry loop. */
    method Box(e: PumpError)
      modifies this`errBox, this`ready
      ensures errBox == Some(e) && ready
    {
      errBox, ready := Some(e), true;
    }

    /** A read that is not a line. */
    method Interrupt(r: Read) returns (f: Flow)
      requires !r.Line? && !terminalSent && ready == started && errBox == None
      modifies this`queue, this`terminalSent, this`errBox, this`ready
      ensures f != Proceed && (f.Raised? ==> !terminalSent)
      ensures started ==> ready && errBox == None && Spent(f) == old(queue) + InterruptFrames(env, r)
      ensures !started ==> queue == old(queue) && !terminalSent && Unanswered(r, f)
    {
      match r {
        case Cancelled =>
          assert queue + [] == queue;
          return TaskCancelled;
        case Broken(timeout) =>
          return Raised(if timeout then Timeout else Connection);
        case Idle =>
          if !started {
            Box(NoOutputInTime);
            return Return;
          }
          f := FailStream(Timeout);
          assert queue + [] == queue;
          return if f == Proceed then Return else f;
      }
    }

    /** The queue, with the error frame the exception handler is about to add. */
    ghost function Spent(f: Flow): seq<Frame>
      reads this
    {
      queue + (if f.Raised? then Fail(env, f.error) else [])
    }

    /** The pump stopped at its first read, before any line. */
    ghost predicate Unanswered(r: Read, f: Flow)
      reads this
    {
      match f
      case Return => r.Idle? && ready && errBox == Some(NoOutputInTime)
      case Raised(_) => r.Broken? && !ready && errBox == None
      case TaskCancelled => r.Cancelled? && !ready && errBox == None
      case Proceed => false
    }

    /** One read while the client is there. */
    method ReadOne(r: Read, ghost done: seq<Delta>) returns (f: Flow)
      requires !terminalSent && !clientGone && Holds(done) && queue == Delivered(done)
      requires ready == started && errBox == None && (!started ==> done == [])
      modifies this
      ensures !clientGone && started == (old(started) || r.Line?)
      ensures started ==> ready && errBox == None
      ensures f == Proceed ==> !Ends(r) && !terminalSent && Holds(done + r.event) && queue == Delivered(done + r.event)
      ensures f != Proceed ==> Ends(r) && (f.Raised? ==> !terminalSent)
      ensures f != Proceed && started ==> Spent(f) == Delivered(done) + ReadFrames(env, r)
      ensures f != Proceed && !started ==> queue == [] && !terminalSent && Unanswered(r, f)
    {
      if !r.Line? {
        f := Interrupt(r);
        return;
      }
      started, ready := true, true;
      f := ApplyLine(r.event, done);
    }

    method ApplyLine(event: seq<Delta>, ghost done: seq<Delta>) returns (f: Flow)
      requires !terminalSent && !clientGone && Holds(done) && queue == Delivered(done)
      modifies this`queue, this`terminalSent, this`finish, this`usage, this`sawTerminal
      ensures f == Proceed <==> !Stopped(event)
      ensures f == Proceed ==> !terminalSent && Holds(done + event) && queue == Delivered(done + event)
      ensures f.Raised? ==> !terminalSent
      ensures f != Proceed ==> Spent(f) == Delivered(done) + ReadFrames(env, Line(event, false))
    {
      DeliveredAppend(done, event);
      f := ApplyDeltas(done, event);
      if f != Proceed {
        ghost var n := Applied(event);
        ghost var shown, stop := Delivered(event[..n]), StopFrames(env, event[n]);
        assert Spent(f) == Delivered(done) + shown + stop by {
          assert queue + [] == queue;
        }
        assert Delivered(done) + shown + stop == Delivered(done) + (shown + stop);
      }
    }

    /** Reads while the client is there. */
    method ReadLive() returns (f: Flow)
      requires !terminalSent && !clientGone && Holds([]) && queue == [] && !ready && !started && errBox == None
      modifies this
      ensures !clientGone && started == (env.live != [] && env.live[0].Line?)
      ensures started ==> ready && errBox == None
      ensures f == Proceed ==>
        && CleanBody(env.live) && !terminalSent && Holds(LineDeltas(env.live))
        && queue == Delivered(LineDeltas(env.live)) && ready == started && errBox == None
      ensures f != Proceed ==> !CleanBody(env.live) && (f.Raised? ==> !terminalSent)
      ensures f != Proceed && started ==> Spent(f) == BrokenFrames(env, env.live)
      ensures f != Proceed && !started ==> env.live != [] && queue == [] && !terminalSent && Unanswered(env.live[0], f)
    {
      ghost var done := [];
      assert env.live[0..] == env.live;
      for i := 0 to |env.live|
        invariant ReadSoFar(env.live, i, done) && Holds(done) && queue == Delivered(done)
        invariant !terminalSent && !clientGone && errBox == None
        invariant started == ready == (i > 0) && (i > 0 ==> env.live[0].Line?) && (i == 0 ==> done == [])
      {
        f := ReadOne(env.live[i], done);
        if f != Proceed {
          BrokenAt(env, i, done);
          return;
        }
        OneMoreLine(env.live, i, done);
        done := done + env.live[i].event;
      }
      f := Proceed;
      assert env.live[|env.live|..] == [] && done + [] == done;
    }

    /** Reads once the client has left: nothing more is queued for it but, at most, one error. */
    method ReadAfter(l: Leaving) returns (f: Flow)
      requires !terminalSent && !clientGone && ready == started && errBox == None && l.after != []
      modifies this`queue, this`terminalSent, this`errBox, this`ready, this`started, this`clientGone
      ensures f.Raised? ==> !terminalSent
      ensures !l.after[0].Line? ==> f != Proceed && started == old(started)
      ensures !l.after[0].Line? && started ==>
        ready && errBox == None && Spent(f) == old(queue) + InterruptFrames(env, l.after[0])
      ensures !l.after[0].Line? && !started ==> queue == old(queue) && !terminalSent && Unanswered(l.after[0], f)
      ensures l.after[0].Line? ==> started && ready && errBox == None
      ensures l.after[0].Line? ==> (f == Proceed <==> !(l.grace && DrainEnd(l.after[1..]).Some?))
      ensures l.after[0].Line? && f == Proceed ==> clientGone && !terminalSent && queue == old(queue) + Farewell(l)
      ensures l.after[0].Line? && f != Proceed ==>
        Spent(f) == old(queue) + InterruptFrames(env, DrainEnd(l.after[1..]).value)
    {
      if !l.after[0].Line? {
        f := Interrupt(l.after[0]);
        return;
      }
      started, ready, clientGone := true, true, true;
      if !l.grace {
        queue := queue + [StreamError(Disconnected)];
        return Proceed;
      }
      assert queue + [] == queue;
      for i := 1 to |l.after|
        invariant started && ready && clientGone && !terminalSent && errBox == None && queue == old(queue)
        invariant DrainEnd(l.after[i..]) == DrainEnd(l.after[1..])
      {
        assert l.after[i..][1..] == l.after[i + 1..];
        if !l.after[i].Line? {
          f := Interrupt(l.after[i]);
          return;
        }
        if l.after[i].late {
          return Proceed;
        }
      }
      return Proceed;
    }

    /** From the end of the body to the terminal frames. */
    method WindUp(ghost ds: seq<Delta>) returns (f: Flow)
      requires !terminalSent && Holds(ds)
      modifies this`queue, this`terminalSent, this`finish
      ensures f != Proceed && (f.Raised? ==> f.error == Connection)
      ensures clientGone ==>
        !terminalSent && Spent(f) == old(queue) + (if env.tail.FaultBeforePricing? then Fail(env, Connection) else [])
      ensures !clientGone && !terminalSent ==> Spent(f) == old(queue) + EndFrames(env, ds)
      ensures !clientGone && terminalSent ==> queue == old(queue) + EndFrames(env, ds)
    {
      assert queue + [] == queue;
      if env.tail.FaultBeforePricing? {
        return Raised(Connection);
      }
      if env.tail.CancelledBeforePricing? {
        return TaskCancelled;
      }
      if clientGone {
        return Return;
      }
      if finish.None? && !sawTerminal {
        f := FailStream(Incomplete);
        return if f == Proceed then Return else f;
      }
      if !env.usageDropped {
        var reported := usage.GetOr(0);
        queue := queue + [UsageTotal(if reported == 0 then env.estimate else reported)];
      }
      if env.tail.CancelledBeforeFinish? {
        return TaskCancelled;
      }
      if finish.None? {
        finish := Some(STOP);
      }
      queue := queue + [FinishReason(finish.value)];
      if env.tail.CancelledBeforeEnd? {
        return TaskCancelled;
      }
      queue := queue + [StreamEnd];
      terminalSent := true;
      return if env.tail.FaultAfterEnd? then Raised(Connection) else Return;
    }

    /** Everything queued by the time the exception handler is through. */
    ghost function Total(f: Flow): seq<Frame>
      reads this
    {
      if terminalSent then queue else Spent(f)
    }

    /** The last buffered event, then the end of the stream. */
    method FlushAndWindUp(ghost ds: seq<Delta>) returns (f: Flow)
      requires !terminalSent && Holds(ds) && (!clientGone ==> queue == Delivered(ds))
      modifies this`queue, this`terminalSent, this`finish, this`usage, this`sawTerminal
      ensures f != Proceed
      ensures clientGone ==> Total(f) == old(queue) + LateFrames(env)
      ensures !clientGone ==> Total(f) == DrainedFrames(env, ds)
    {
      f := ApplyDeltas(ds, env.flush);
      DeliveredAppend(ds, env.flush);
      if f != Proceed {
        assert queue + [] == queue;
        ghost var error := StopFrames(env, env.flush[Applied(env.flush)]);
        assert old(queue) + (error + []) == old(queue) + error;
        return;
      }
      f := WindUp(ds + env.flush);
      assert queue + [] == queue;
    }

    /** The client leaves while the body is still being read. */
    method LeaveAndWindUp(l: Leaving, ghost ds: seq<Delta>) returns (f: Flow)
      requires !terminalSent && !clientGone && ready == started && errBox == None && l.after != []
      requires Holds(ds) && queue == Delivered(ds)
      modifies this
      ensures f != Proceed && started == (old(started) || l.after[0].Line?)
      ensures started ==> ready && errBox == None
      ensures started && l.after[0].Line? ==> Total(f) == Delivered(ds) + GoneFrames(env, l)
      ensures started && !l.after[0].Line? ==> Total(f) == Delivered(ds) + InterruptFrames(env, l.after[0])
      ensures !started ==> queue == Delivered(ds) && !terminalSent && Unanswered(l.after[0], f)
    {
      f := ReadAfter(l);
      if f != Proceed {
        assert Total(f) == Spent(f) by {
          assert queue + [] == queue;
        }
        return;
      }
      assert Delivered(ds) + Farewell(l) + LateFrames(env) == Delivered(ds) + (Farewell(l) + LateFrames(env));
      f := FlushAndWindUp(ds);
    }

    /** The part of the pump under its `try`, connection already open. */
    method ReadAndWindUp() returns (f: Flow)
      requires Opened(env.setup) && queue == [] && errBox == None && Holds([])
      requires !started && !ready && !terminalSent && !clientGone
      modifies this
      ensures started == Begun(env) && f != Proceed
      ensures started ==> ready && errBox == None && Total(f) == Frames(env)
      ensures !started ==> queue == [] && !terminalSent
      ensures !started && f == Return ==> ready && errBox == Boxed(env)
      ensures !started && f != Return ==> !ready && errBox == None
      ensures !started && f.Raised? ==> Boxed(env) == Some(FaultBeforeOutput)
      ensures !started && f == TaskCancelled ==> Boxed(env) == Some(NothingProduced)
    {
      ghost var ds := LineDeltas(env.live);
      f := ReadLive();
      if f != Proceed {
        return;
      }
      if env.leaving.Some? && env.leaving.value.after != [] {
        f := LeaveAndWindUp(env.leaving.value, ds);
        return;
      }
      if !started {
        Box(NoOutput);
        return Return;
      }
      f := FlushAndWindUp(ds);
    }

    /** Opens the connection, refreshing the credential once on a refusal. */
    method Connect() returns (f: Flow)
      requires !ready && errBox == None && !env.setup.AdapterFault? && !env.setup.EncodeFault?
      modifies this`errBox, this`ready
      ensures f == Proceed <==> Opened(env.setup)
      ensures f == Proceed ==> !ready && errBox == None
      ensures f == Return ==> ready && errBox == Boxed(env)
      ensures f.Raised? ==> env.setup.ConnectFault? && !ready && errBox == None
      ensures f == TaskCancelled ==> env.setup.ConnectCancelled? && !ready && errBox == None
    {
      match env.setup {
        case ConnectFault => return Raised(Connection);
        case ConnectCancelled => return TaskCancelled;
        case Unreachable(timeout) =>
          Box(TransportError(timeout));
          return Return;
        case Refusal(status, refresh) =>
          match refresh {
            case NotRotated => Box(UpstreamError(status));
            case RetryUnreachable => Box(TransportError(false));
            case RetryRefused(again) => Box(UpstreamError(again));
            case RetryAccepted => return Proceed;
          }
          return Return;
        case Accepted => return Proceed;
      }
    }

    /** `_pump_once`. */
    method PumpOnce() returns (f: Flow)
      requires queue == [] && errBox == None && Holds([])
      requires !started && !ready && !terminalSent && !clientGone
      modifies this
      ensures env.setup.AdapterFault? ==> f.Raised? && !ready && errBox == None && queue == []
      ensures !env.setup.AdapterFault? ==> ready && errBox == Boxed(env) && queue == Frames(env)
    {
      if env.setup.AdapterFault? {
        return Raised(Connection);
      }
      if env.setup.EncodeFault? {
        Box(EncodeError);
        return Return;
      }
      f := Connect();
      if f == Proceed {
        f := ReadAndWindUp();
      }
      f := HandleAndClose(f);
    }

    /** The exception handler and the `finally` of `_pump_once`. */
    method HandleAndClose(outcome: Flow) returns (f: Flow)
      requires !started ==> !terminalSent && (!ready ==> errBox == None)
      requires started ==> ready && errBox == None
      modifies this`queue, this`terminalSent, this`errBox, this`ready
      ensures ready && queue == if started then old(Total(outcome)) else old(queue)
      ensures started || (old(ready) && !outcome.Raised?) ==> errBox == old(errBox)
      ensures !started && outcome.Raised? ==> errBox == Some(FaultBeforeOutput)
      ensures !started && !outcome.Raised? && !old(ready) ==> errBox == Some(NothingProduced)
    {
      f := outcome;
      assert queue + [] == queue;
      if outcome.Raised? {
        if !started {
          Box(FaultBeforeOutput);
        } else {
          var ended := FailStream(outcome.error);
          f := if ended == Proceed then Return else ended;
        }
      }
      if !ready && errBox.None? {
        errBox := Some(NothingProduced);
      }
      ready := true;
    }

    /** `_pump`: the backstop for a fault before the pump's own handlers. */
    method Run()
      requires queue == [] && errBox == None && Holds([])
      requires !started && !ready && !terminalSent && !clientGone
      modifies this
      ensures ready && errBox == Boxed(env) && queue == Frames(env)
    {
      var f := PumpOnce();
      if f.Raised? && !ready {
        if errBox.None? {
          errBox := Some(SetupError);
        }
        ready := true;
      }
    }
  }

  /** What a client that leaves without a grace drain is told. */
  function Farewell(l: Leaving): seq<Frame> {
    if l.grace then [] else [StreamError(Disconnected)]
  }

  lemma {:induction false} DeliveredAppend(a: seq<Delta>, b: seq<Delta>)
    ensures Delivered(a + b) == Delivered(a) + Delivered(b)
    ensures Stopped(b) ==> Delivered(a + b[..Applied(b)]) == Delivered(a) + Delivered(b[..Applied(b)])
    decreases |b|
  {
    if b == [] {
      assert a + b == a;
    } else {
      var n := |b| - 1;
      assert (a + b)[..|a + b| - 1] == a + b[..n];
      DeliveredAppend(a, b[..n]);
      if Stopped(b) {
        DeliveredAppend(a, b[..Applied(b)]);
      }
    }
  }

  lemma {:induction false} AppliedAppend(a: seq<Delta>, b: seq<Delta>)
    requires !Stopped(a)
    ensures Applied(a + b) == |a| + Applied(b)
  {
    if a == [] {
      assert a + b == b;
    } else {
      assert (a + b)[1..] == a[1..] + b;
      AppliedAppend(a[1..], b);
    }
  }

  /** The first `i` reads are lines, their deltas are `done`, and none of them stopped the pump. */
  ghost predicate ReadSoFar(live: seq<Read>, i: nat, done: seq<Delta>) {
    && i <= |live| && !Stopped(done)
    && LineDeltas(live) == done + LineDeltas(live[i..]) && Interruption(live) == Interruption(live[i..])
  }

  lemma OneMoreLine(live: seq<Read>, i: nat, done: seq<Delta>)
    requires i < |live| && ReadSoFar(live, i, done) && !Ends(live[i])
    ensures ReadSoFar(live, i + 1, done + live[i].event)
  {
    var rest := live[i..];
    assert rest[1..] == live[i + 1..];
    AppliedAppend(done, live[i].event);
    assert done + (live[i].event + LineDeltas(live[i + 1..])) == done + live[i].event + LineDeltas(live[i + 1..]);
  }

  lemma BrokenAt(env: Env, i: nat, done: seq<Delta>)
    requires i < |env.live| && ReadSoFar(env.live, i, done) && Ends(env.live[i])
    ensures !CleanBody(env.live)
    ensures BrokenFrames(env, env.live) == Delivered(done) + ReadFrames(env, env.live[i])
  {
    var rest, r := env.live[i..], env.live[i];
    assert rest[1..] == env.live[i + 1..];
    var ds := LineDeltas(env.live);
    if r.Line? {
      var more := LineDeltas(env.live[i + 1..]);
      var n := Applied(r.event);
      AppliedStopsFirst(r.event, more);
      AppliedAppend(done, r.event + more);
      assert ds == done + (r.event + more);
      assert ds[..Applied(ds)] == done + r.event[..n];
      DeliveredAppend(done, r.event);
    } else {
      assert LineDeltas(rest) == [] && ds == done;
    }
  }

  lemma {:induction false} AppliedStopsFirst(a: seq<Delta>, b: seq<Delta>)
    requires Stopped(a)
    ensures Applied(a + b) == Applied(a)
  {
    assert (a + b)[0] == a[0];
    if !Stops(a[0]) {
      assert (a + b)[1..] == a[1..] + b;
      AppliedStopsFirst(a[1..], b);
    }
  }

  lemma SnocFacts(before: seq<Delta>, ds: seq<Delta>, i: nat)
    requires i < |ds|
    ensures ds[..i + 1] == ds[..i] + [ds[i]] && ds[..i + 1][..i] == ds[..i]
    ensures (before + ds[..i + 1])[..|before| + i] == before + ds[..i]
    ensures (before + ds[..i + 1])[|before| + i] == ds[i] && |before + ds[..i + 1]| == |before| + i + 1
  {
  }
}
